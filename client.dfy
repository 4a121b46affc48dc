/** hub/client.go: one connection's setup and its two pumps. The reader
    turns inbound frames into broadcast events and ends with one
    unregister; the writer drains the outbound queue onto the websocket. */
module Client {
  import opened GoStrings
  import opened Types
  import opened Hub

  /** Durations in nanoseconds, as Go's `time.Duration` counts them
      (hub/client.go:17-27). */
  const Second: int := 1_000_000_000
  const WriteWait: int := 10 * Second
  const PongWait: int := 60 * Second
  const PingPeriod: int := (PongWait * 9) / 10
  const MaxMessageSize: int := 512

  /** The writer pings before the reader's deadline runs out. */
  lemma PingPeriodBeforePongWait()
    ensures PingPeriod == 54 * Second && PingPeriod * 10 == PongWait * 9
    ensures 0 < PingPeriod < PongWait
  {
  }

  /** The room name and password a client asks for. */
  datatype RoomChoice = RoomChoice(room: string, password: string)

  /** The `roomName` query value split at ':' (hub/client.go:141-146): the
      room is the text before the first ':', the password the text between
      the first and the second ':' ("" without any ':'); anything after a
      second ':' is dropped. The value is taken as already unescaped. */
  function ParseRoomQuery(query: string): (r: RoomChoice)
    ensures ':' !in r.room && ':' !in r.password
    ensures ':' !in query ==> r == RoomChoice(query, "")
    ensures ':' in query ==>
      var i := IndexOf(query, ':');
      var rest := query[i + 1..];
      && r.room == query[..i]
      && r.password == if ':' in rest then rest[..IndexOf(rest, ':')] else rest
  {
    var parts := Split(query, ':');
    assert ':' in query ==> parts[1] == Split(query[IndexOf(query, ':') + 1..], ':')[0];
    RoomChoice(parts[0], if |parts| > 1 then parts[1] else "")
  }

  /** A query written as "room:password", or as "room" for no password,
      parses back to that room and password. */
  lemma {:induction false} RoomQueryRoundTrip(room: string, password: string)
    requires ':' !in room && ':' !in password
    ensures ParseRoomQuery(room + ":" + password) == RoomChoice(room, password)
    ensures ParseRoomQuery(room) == RoomChoice(room, "")
  {
    var q := room + ":" + password;
    assert q[..|room|] == room && q[|room|] == ':';
    assert q[|room| + 1..] == password;
  }

  /** The message the reader builds from one inbound frame
      (hub/client.go:81-86). Its timestamp is never set. A message from a
      subscription with a room or a receiver goes to the very room Register
      filed that subscription under; one with neither goes nowhere, although
      Register filed it under "". */
  function MessageFrom(s: Subscription, frame: string): (m: Message)
    ensures m.sender == s.senderUserName && m.data == frame && m.timestamp == ZeroTime
    ensures s.room != "" || s.recvUserName != "" ==> DestinationKey(m) == Some(SubscriptionKey(s))
    ensures s.room == "" && s.recvUserName == "" ==> DestinationKey(m) == None && SubscriptionKey(s) == ""
  {
    Message(s.room, s.recvUserName, s.senderUserName, frame, ZeroTime)
  }

  /** `readPump` (hub/client.go:60-88): `frames` are the frames read before
      the read that fails. Each becomes one broadcast event, in order, and
      the loop's exit sends exactly one unregister, for this subscription. */
  method ReadPump(s: Subscription, frames: seq<string>) returns (events: seq<Event>)
    ensures |events| == |frames| + 1
    ensures forall i | 0 <= i < |frames| :: events[i] == BroadcastEvent(MessageFrom(s, frames[i]))
    ensures events[|frames|] == UnregisterEvent(s)
    ensures forall i | 0 <= i < |events| :: events[i].UnregisterEvent? <==> i == |frames|
  {
    events := [];
    var i := 0;
    while i < |frames|
      invariant 0 <= i <= |frames| && |events| == i
      invariant forall j | 0 <= j < i :: events[j] == BroadcastEvent(MessageFrom(s, frames[j]))
    {
      events := events + [BroadcastEvent(MessageFrom(s, frames[i]))];
      i := i + 1;
    }
    events := events + [UnregisterEvent(s)];
  }

  /** Text frames for the payloads, in order. */
  function TextFrames(payloads: seq<Payload>): (frames: seq<Frame>)
    ensures |frames| == |payloads|
    ensures forall i | 0 <= i < |payloads| :: frames[i] == Text(payloads[i])
  {
    if payloads == [] then [] else [Text(payloads[0])] + TextFrames(payloads[1..])
  }

  /** `writePump` (hub/client.go:90-116), up to the point where it waits:
      the queued payloads go out as text frames in FIFO order; if the queue
      is closed, one empty close frame follows and the writer stops
      (`stopped`); otherwise the writer waits for more. */
  method WritePump(c: Connection) returns (stopped: bool)
    modifies c
    ensures stopped == old(c.closed)
    ensures c.send == [] && c.closed == old(c.closed)
    ensures c.wire == old(c.wire) + TextFrames(old(c.send)) + (if stopped then [Close(None)] else [])
  {
    ghost var k := 0;
    while true
      invariant 0 <= k <= |old(c.send)|
      invariant c.send == old(c.send)[k..] && c.closed == old(c.closed)
      invariant c.wire == old(c.wire) + TextFrames(old(c.send)[..k])
      decreases |c.send|
    {
      var r := c.Receive();
      match r
      case Item(p) =>
        assert old(c.send)[..k + 1] == old(c.send)[..k] + [p];
        TextFramesAppend(old(c.send)[..k], [p]);
        c.Write(Text(p));
        k := k + 1;
      case Drained =>
        assert old(c.send)[..k] == old(c.send);
        c.Write(Close(None));
        return true;
      case Pending =>
        assert old(c.send)[..k] == old(c.send);
        return false;
    }
  }

  lemma {:induction false} TextFramesAppend(a: seq<Payload>, b: seq<Payload>)
    ensures TextFrames(a + b) == TextFrames(a) + TextFrames(b)
  {
    if a == [] {
      assert a + b == b;
    } else {
      assert (a + b)[1..] == a[1..] + b;
      TextFramesAppend(a[1..], b);
    }
  }

  /** `ServeWs` after the upgrade (hub/client.go:122-160): the room query is
      split into room and password, a fresh connection gets an empty open
      queue, and its subscription is registered before either pump starts.
      The pumps themselves are ReadPump and WritePump. */
  method ServeWs(h: Hub, roomQuery: string, recvUserName: string, senderUserName: string)
    returns (s: Subscription, v: Verdict)
    requires h.Valid()
    modifies h
    ensures h.Valid()
    ensures fresh(s.conn)
    ensures RoomChoice(s.room, s.password) == ParseRoomQuery(roomQuery)
    ensures s.recvUserName == recvUserName && s.senderUserName == senderUserName
    ensures v == Created <==> SubscriptionKey(s) !in old(h.rooms)
    ensures v == Rejected <==>
      var key := SubscriptionKey(s);
      key in old(h.rooms) && old(h.PasswordOf(key)) != "" && old(h.PasswordOf(key)) != s.password
    ensures v == Created ==>
      var key := SubscriptionKey(s);
      h.rooms == old(h.rooms)[key := {s.conn}] && h.roomPassword == old(h.roomPassword)[key := s.password]
    ensures v == Joined ==>
      var key := SubscriptionKey(s);
      h.rooms == old(h.rooms)[key := old(h.rooms)[key] + {s.conn}] && h.roomPassword == old(h.roomPassword)
    ensures v != Rejected ==>
      && h.users == old(h.users) + {senderUserName}
      && !s.conn.closed && s.conn.send == [] && s.conn.wire == []
    ensures v == Rejected ==>
      && h.rooms == old(h.rooms) && h.roomPassword == old(h.roomPassword) && h.users == old(h.users)
      && s.conn.closed && s.conn.send == [] && s.conn.wire == [InvalidPasswordClose]
  {
    var choice := ParseRoomQuery(roomQuery);
    var c := new Connection();
    s := Subscription(c, choice.room, choice.password, recvUserName, senderUserName);
    v := h.Register(s);
  }
}
