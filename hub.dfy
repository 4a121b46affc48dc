/** hub/hub.go: the hub, the single owner of the room tables. Each method
    is one case of the `select` in `Run`; the hub serialises them, so one
    call runs to completion before the next starts. */
module Hub {
  import opened Types
  import opened Util

  /** `fmt.Sprintf("room:%s", room)`. */
  function RoomKey(room: string): (key: string)
    ensures |key| == |room| + 5 && key[..5] == "room:" && key[5..] == room
  {
    "room:" + room
  }

  /** The key Register and Unregister file a subscription under
      (hub/hub.go:52-57, 73-78). With neither a room nor a receiver the
      key stays Go's zero string "". */
  function SubscriptionKey(s: Subscription): (key: string)
    ensures key == "" <==> s.room == "" && s.recvUserName == ""
    ensures key != "" ==> |key| >= 5
  {
    if s.room != "" then RoomKey(s.room)
    else if s.recvUserName != "" then UserChatKey(s.senderUserName, s.recvUserName)
    else ""
  }

  /** The key Broadcast delivers to (hub/hub.go:93-98): the room if the
      message names one, else the direct conversation of sender and
      receiver, else nobody. */
  function DestinationKey(m: Message): (key: Option<string>)
    ensures key.None? <==> m.room == "" && m.user == ""
    ensures key.Some? ==> |key.value| >= 5
  {
    if m.room != "" then Some(RoomKey(m.room))
    else if m.user != "" then Some(UserChatKey(m.sender, m.user))
    else None
  }

  /** The raw room name, which the cleanup steps delete, is never the key
      the connection was filed under, unless both are "". */
  lemma RawRoomIsNotKey(s: Subscription)
    ensures SubscriptionKey(s) == s.room <==> s.room == "" && s.recvUserName == ""
  {
  }

  /** Likewise for a message: its raw room name is never its destination. */
  lemma RawRoomIsNotDestination(m: Message)
    ensures DestinationKey(m).Some? ==> DestinationKey(m).value != m.room
  {
  }

  /** What became of a registration. */
  datatype Verdict = Created | Joined | Rejected

  class Hub {
    /** `Rooms`: room key to the set of member connections. */
    var rooms: map<string, set<Connection>>
    /** `RoomPassword`: room key to its password, "" meaning none. */
    var roomPassword: map<string, string>
    /** `Users`: the names considered online. */
    var users: set<string>

    constructor ()
      ensures rooms == map[] && roomPassword == map[] && users == {}
      ensures Valid()
    {
      rooms := map[];
      roomPassword := map[];
      users := {};
    }

    /** Every connection that is a member of some room. */
    function Members(): set<Connection>
      reads this
    {
      set k, c | k in rooms && c in rooms[k] :: c
    }

    /** The hub's invariant: every member's queue is open (so the hub never
        sends on or closes a closed queue, both of which panic in Go), a
        connection belongs to one room at most, and every room has a
        password entry. */
    ghost predicate Valid()
      reads this, Members()
    {
      && (forall k, c | k in rooms && c in rooms[k] :: !c.closed)
      && (forall k1, k2, c | k1 in rooms && k2 in rooms && c in rooms[k1] && c in rooms[k2] :: k1 == k2)
      && rooms.Keys <= roomPassword.Keys
    }

    /** `h.RoomPassword[key]`: a missing key reads as "". */
    function PasswordOf(key: string): string
      reads this
    {
      if key in roomPassword then roomPassword[key] else ""
    }

    /** The connections a message is delivered to. */
    function Targets(m: Message): set<Connection>
      reads this
    {
      match DestinationKey(m)
      case None => {}
      case Some(key) => if key in rooms then rooms[key] else {}
    }

    /** The register case (hub/hub.go:51-71). The first joiner of a key
        creates the room and fixes its password, possibly "". A later joiner
        is rejected when the stored password is non-empty and differs from
        the one supplied: it gets a close frame with code 1003, its queue is
        closed, and no table changes. Otherwise it joins, and its sender
        becomes online. An existing key's password is never rewritten.
        ServeWs hands over a fresh connection, hence the second requires. */
    method Register(s: Subscription) returns (v: Verdict)
      requires Valid()
      requires s.conn !in Members() && !s.conn.closed
      modifies this, s.conn
      ensures Valid()
      ensures v == Created <==> SubscriptionKey(s) !in old(rooms)
      ensures v == Rejected <==>
        var key := SubscriptionKey(s);
        key in old(rooms) && old(PasswordOf(key)) != "" && old(PasswordOf(key)) != s.password
      ensures v == Created ==>
        var key := SubscriptionKey(s);
        rooms == old(rooms)[key := {s.conn}] && roomPassword == old(roomPassword)[key := s.password]
      ensures v == Joined ==>
        var key := SubscriptionKey(s);
        rooms == old(rooms)[key := old(rooms)[key] + {s.conn}] && roomPassword == old(roomPassword)
      ensures v != Rejected ==>
        users == old(users) + {s.senderUserName} && unchanged(s.conn)
      ensures v == Rejected ==>
        && rooms == old(rooms) && roomPassword == old(roomPassword) && users == old(users)
        && s.conn.closed && s.conn.send == old(s.conn.send)
        && s.conn.wire == old(s.conn.wire) + [InvalidPasswordClose]
    {
      var key := SubscriptionKey(s);
      if key !in rooms {
        rooms := rooms[key := {}];
        roomPassword := roomPassword[key := s.password];
        v := Created;
        assert rooms[key] + {s.conn} == {s.conn};
      } else {
        var pw := PasswordOf(key);
        if pw != "" && pw != s.password {
          s.conn.Write(InvalidPasswordClose);
          s.conn.CloseSend();
          return Rejected;
        }
        v := Joined;
      }
      rooms := rooms[key := rooms[key] + {s.conn}];
      users := users + {s.senderUserName};
      assert v == Created ==> rooms == old(rooms)[key := {s.conn}];
    }

    /** The unregister case (hub/hub.go:72-91). A member is removed and its
        queue closed; a connection that is not a member (a rejected or an
        evicted one) is left alone, so no queue is closed twice. When the
        room empties, the entries deleted are those under the raw room name
        `s.room`, not under the key: the emptied room itself stays, with an
        empty member set and its old password. The sender's name goes
        offline in every case, even while it has other connections. */
    method Unregister(s: Subscription)
      requires Valid()
      modifies this, s.conn
      ensures Valid()
      ensures users == old(users) - {s.senderUserName}
      ensures var key := SubscriptionKey(s);
        !(key in old(rooms) && s.conn in old(rooms)[key]) ==>
          rooms == old(rooms) && roomPassword == old(roomPassword) && unchanged(s.conn)
      ensures var key := SubscriptionKey(s);
        key in old(rooms) && s.conn in old(rooms)[key] ==>
          && s.conn.closed && s.conn.send == old(s.conn.send) && s.conn.wire == old(s.conn.wire)
          && var left := old(rooms)[key] - {s.conn};
             if left == {} then
               rooms == old(rooms)[key := {}] - {s.room} && roomPassword == old(roomPassword) - {s.room}
             else
               rooms == old(rooms)[key := left] && roomPassword == old(roomPassword)
      ensures var key := SubscriptionKey(s);
        key in old(rooms) && old(rooms)[key] == {s.conn} && (s.room != "" || s.recvUserName != "") ==>
          key in rooms && rooms[key] == {} && PasswordOf(key) == old(PasswordOf(key))
    {
      var key := SubscriptionKey(s);
      if key in rooms {
        var connections := rooms[key];
        if s.conn in connections {
          rooms := rooms[key := connections - {s.conn}];
          s.conn.CloseSend();
          if |rooms[key]| == 0 {
            rooms := rooms - {s.room};
            roomPassword := roomPassword - {s.room};
          }
        }
      }
      users := users - {s.senderUserName};
    }

    /** The broadcast case (hub/hub.go:92-114). The message is encoded once;
        if encoding fails nothing happens. Otherwise every member of the
        destination room whose queue holds fewer than SendCapacity items gets
        the same payload appended; every other member gets nothing, has its
        queue closed and is removed. If that empties the room, the entry
        under the raw room name `m.room` is deleted, not the destination
        room. The sender need not be a member. Members are visited in any
        order (Go's map order is unspecified), and the outcome is the same
        for every order. */
    method Broadcast(m: Message, encode: Message -> Option<Payload>)
      requires Valid()
      modifies this, Targets(m)
      ensures Valid()
      ensures users == old(users) && roomPassword == old(roomPassword)
      ensures encode(m).None? ==>
        rooms == old(rooms) && forall c | c in old(Targets(m)) :: unchanged(c)
      ensures encode(m).Some? ==> forall c | c in old(Targets(m)) ::
        && c.wire == old(c.wire)
        && if |old(c.send)| < SendCapacity then
             c.send == old(c.send) + [encode(m).value] && !c.closed
           else
             c.send == old(c.send) && c.closed
      ensures encode(m).Some? && old(Targets(m)) != {} ==>
        var key := DestinationKey(m).value;
        && key in rooms
        && (forall c :: c in rooms[key] <==> c in old(rooms)[key] && |old(c.send)| < SendCapacity)
        && rooms == if rooms[key] == {} then old(rooms)[key := {}] - {m.room} else old(rooms)[key := rooms[key]]
      ensures old(Targets(m)) == {} ==> rooms == old(rooms)
    {
      var dest := DestinationKey(m);
      var encoded := encode(m);
      if encoded.None? || dest.None? || dest.value !in rooms {
        return;
      }
      RawRoomIsNotDestination(m);
      FanOut(dest.value, m.room, encoded.value);
    }

    /** The delivery loop of the broadcast case (hub/hub.go:104-113):
        `connections` is the member set of `key`, updated in place, and
        `raw` is the message's raw room name. */
    method FanOut(key: string, raw: string, payload: Payload)
      requires key in rooms && raw != key
      requires forall c | c in rooms[key] :: !c.closed
      modifies this, rooms[key]
      ensures users == old(users) && roomPassword == old(roomPassword)
      ensures forall c | c in old(rooms)[key] ::
        && c.wire == old(c.wire)
        && if |old(c.send)| < SendCapacity then
             c.send == old(c.send) + [payload] && !c.closed
           else
             c.send == old(c.send) && c.closed
      ensures key in rooms
      ensures forall c :: c in rooms[key] <==> c in old(rooms)[key] && |old(c.send)| < SendCapacity
      ensures rooms == if rooms[key] == {} && old(rooms)[key] != {} then old(rooms)[key := {}] - {raw}
                       else old(rooms)[key := rooms[key]]
    {
      ghost var targets := rooms[key];
      ghost var full := set c | c in targets && |c.send| >= SendCapacity;
      var pending := rooms[key];
      while pending != {}
        invariant targets == old(rooms)[key] && pending <= targets
        invariant forall c | c in targets :: c in full <==> |old(c.send)| >= SendCapacity
        invariant key in rooms && rooms[key] == targets - (full - pending)
        invariant rooms == if rooms[key] == {} && targets != {} then old(rooms)[key := {}] - {raw}
                           else old(rooms)[key := rooms[key]]
        invariant users == old(users) && roomPassword == old(roomPassword)
        invariant forall c | c in pending :: !c.closed && c.send == old(c.send) && c.wire == old(c.wire)
        invariant forall c | c in targets - pending ::
          && c.wire == old(c.wire)
          && (c !in full ==> c.send == old(c.send) + [payload] && !c.closed)
          && (c in full ==> c.send == old(c.send) && c.closed)
        decreases pending
      {
        var c :| c in pending;
        pending := pending - {c};
        var kept := Deliver(c, key, raw, payload);
      }
    }

    /** One iteration of the delivery loop (hub/hub.go:105-112): a
        non-blocking send to `c`; if its queue is full, `c` is closed and
        removed, and an emptied member set deletes the entry under `raw`. */
    method Deliver(c: Connection, key: string, raw: string, payload: Payload) returns (kept: bool)
      requires key in rooms && raw != key && c in rooms[key] && !c.closed
      modifies this, c
      ensures kept <==> |old(c.send)| < SendCapacity
      ensures c.wire == old(c.wire)
      ensures users == old(users) && roomPassword == old(roomPassword)
      ensures kept ==> c.send == old(c.send) + [payload] && !c.closed && rooms == old(rooms)
      ensures !kept ==>
        && c.send == old(c.send) && c.closed
        && key in rooms && rooms[key] == old(rooms)[key] - {c}
        && rooms == if rooms[key] == {} then old(rooms)[key := {}] - {raw} else old(rooms)[key := rooms[key]]
    {
      kept := c.TrySend(payload);
      if !kept {
        c.CloseSend();
        rooms := rooms[key := rooms[key] - {c}];
        if |rooms[key]| == 0 {
          rooms := rooms - {raw};
        }
      }
    }
  }
}
