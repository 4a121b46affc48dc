/** The values and objects that the hub and the connection pumps share
    (hub/hub.go:39-46, hub/client.go:40-53): a message, a subscription, and
    a connection with its bounded outbound queue. */
module Types {

  datatype Option<T> = None | Some(value: T)

  /** An encoded message as it is queued for a connection. */
  type Payload = string

  /** Capacity of every connection's outbound queue (hub/client.go:148). */
  const SendCapacity: nat := 256

  /** Close code 1003, "unsupported data" (section 7.4.1 of RFC 6455),
      which the hub sends when a password is wrong. */
  const CloseUnsupportedData: int := 1003

  datatype CloseStatus = CloseStatus(code: int, reason: string)

  /** A frame written to a connection's websocket. A close frame carries a
      status only when the hub rejects a registration; the writer's own
      close frame has an empty body. */
  datatype Frame = Text(data: Payload) | Close(status: Option<CloseStatus>)

  /** The close frame of a rejected registration (hub/hub.go:64). */
  const InvalidPasswordClose: Frame := Close(Some(CloseStatus(CloseUnsupportedData, "Invalid password")))

  /** Go's zero `time.Time`: the timestamp field is never assigned. */
  const ZeroTime: int := 0

  /** `message`: `room` and `user` are the destination (a room name, or the
      receiving user of a direct conversation), `sender` and `data` are what
      is encoded for the recipients. */
  datatype Message = Message(room: string, user: string, sender: string, data: string, timestamp: int)

  /** `subscription`: produced once per connection and never changed. */
  datatype Subscription = Subscription(
    conn: Connection,
    room: string,
    password: string,
    recvUserName: string,
    senderUserName: string)

  /** What a connection's reader hands to the hub's input channels. */
  datatype Event = RegisterEvent(sub: Subscription) | UnregisterEvent(sub: Subscription) | BroadcastEvent(msg: Message)

  /** What a receive from the outbound queue yields, with Go's channel
      semantics: buffered items first, then `!ok` once the queue is closed
      and drained; an open empty queue makes the receiver wait. */
  datatype Received = Item(payload: Payload) | Drained | Pending

  /** `connection`: the outbound queue `send` (a buffered channel, modelled
      as its buffered items plus a closed flag) and the frames written to the
      websocket so far. */
  class Connection {
    var send: seq<Payload>
    var closed: bool
    var wire: seq<Frame>

    /** `&connection{send: make(chan []byte, 256), ws: ws}` (hub/client.go:148). */
    constructor ()
      ensures send == [] && !closed && wire == []
    {
      send := [];
      closed := false;
      wire := [];
    }

    /** `select { case c.send <- p: ... default: ... }`: a send that never
        blocks. It succeeds only while the queue holds fewer than
        SendCapacity items. Sending on a closed channel panics in Go, so the
        queue must be open. */
    method TrySend(p: Payload) returns (sent: bool)
      requires !closed
      modifies this
      ensures sent <==> |old(send)| < SendCapacity
      ensures send == if sent then old(send) + [p] else old(send)
      ensures |old(send)| <= SendCapacity ==> |send| <= SendCapacity
      ensures closed == old(closed) && wire == old(wire)
    {
      sent := |send| < SendCapacity;
      if sent {
        send := send + [p];
      }
    }

    /** `close(c.send)`. Closing a closed channel panics in Go, so the queue
        must be open; buffered items stay for the writer to drain. */
    method CloseSend()
      requires !closed
      modifies this
      ensures closed && send == old(send) && wire == old(wire)
    {
      closed := true;
    }

    /** `message, ok := <-c.send` as the writer does it. */
    method Receive() returns (r: Received)
      modifies this
      ensures old(send) != [] ==> r == Item(old(send)[0]) && send == old(send)[1..]
      ensures old(send) == [] ==> send == [] && r == (if closed then Drained else Pending)
      ensures closed == old(closed) && wire == old(wire)
    {
      if send != [] {
        r := Item(send[0]);
        send := send[1..];
      } else if closed {
        r := Drained;
      } else {
        r := Pending;
      }
    }

    /** `ws.WriteMessage`: the frame goes out on the websocket. */
    method Write(f: Frame)
      modifies this
      ensures wire == old(wire) + [f]
      ensures send == old(send) && closed == old(closed)
    {
      wire := wire + [f];
    }
  }
}
