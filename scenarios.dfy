/** Short runs of the hub that show, from the contracts alone, what its
    rules add up to. Each is a sequence of events as the hub would receive
    them from ServeWs and the readers. */
module Scenarios {
  import opened Types
  import opened Hub
  import Server

  /** X creates "general" with password "secret", Y joins with the same
      password, Z tries "wrong": Z is turned away with close code 1003 and
      the room still holds exactly X and Y. */
  method ProtectedRoom() returns (h: Hub, x: Connection, y: Connection, z: Connection, vz: Verdict)
    ensures RoomKey("general") in h.rooms && h.rooms[RoomKey("general")] == {x, y}
    ensures vz == Rejected && z.closed && z.wire == [InvalidPasswordClose]
    ensures h.users == {"X", "Y"}
  {
    h := new Hub();
    x := new Connection();
    y := new Connection();
    z := new Connection();
    var vx := h.Register(Subscription(x, "general", "secret", "", "X"));
    assert h.Members() == {x};
    var vy := h.Register(Subscription(y, "general", "secret", "", "Y"));
    assert h.Members() == {x, y};
    vz := h.Register(Subscription(z, "general", "wrong", "", "Z"));
  }

  /** The last member leaving "lobby" does not delete the room: the entries
      removed are those under "lobby", not "room:lobby". The empty room keeps
      its password, so a later joiner without it is still turned away, and
      the listing still shows the room as locked. */
  method StalePassword() returns (h: Hub, v: Verdict, listing: Option<seq<Server.RoomInfo>>)
    ensures RoomKey("lobby") in h.rooms && h.rooms[RoomKey("lobby")] == {}
    ensures v == Rejected
    ensures listing.Some? && Server.RoomInfo("lobby", true) in listing.value
  {
    h := new Hub();
    var x := new Connection();
    var sx := Subscription(x, "lobby", "secret", "", "alice");
    var vx := h.Register(sx);
    h.Unregister(sx);
    assert h.rooms == map[RoomKey("lobby") := {}];
    var y := new Connection();
    v := h.Register(Subscription(y, "lobby", "", "", "bob"));
    listing := Server.ListRooms(h);
    assert h.PasswordOf(RoomKey("lobby")) == "secret";
  }

  /** A subscription with neither a room nor a receiver is filed under the
      key "", and from then on the rooms listing panics. */
  method UnaddressedBreaksListing() returns (h: Hub, listing: Option<seq<Server.RoomInfo>>)
    ensures "" in h.rooms
    ensures listing == None
  {
    h := new Hub();
    var c := new Connection();
    var v := h.Register(Subscription(c, "", "", "", "carol"));
    listing := Server.ListRooms(h);
  }

  /** When a direct conversation empties, the cleanup deletes the entry
      under the raw room name "" — the room of unaddressed subscriptions.
      Its member loses its membership without its queue being closed, and
      its own unregister later closes nothing. Its queue is never closed:
      its writer stops only when a ping fails on the socket its reader
      closed. */
  method DirectChatCleanupDropsUnaddressed() returns (h: Hub, a: Connection)
    ensures "" !in h.rooms && a !in h.Members()
    ensures !a.closed
  {
    h := new Hub();
    a := new Connection();
    var sa := Subscription(a, "", "", "", "carol");
    var va := h.Register(sa);
    var b := new Connection();
    var sb := Subscription(b, "", "", "alice", "bob");
    assert h.Members() == {a};
    var vb := h.Register(sb);
    h.Unregister(sb);
    h.Unregister(sa);
  }

  /** A user with two connections goes offline as soon as one of them
      leaves, although the other is still a member. */
  method OfflineWhileConnected() returns (h: Hub, c2: Connection)
    ensures RoomKey("b") in h.rooms && c2 in h.rooms[RoomKey("b")]
    ensures "alice" !in h.users
  {
    h := new Hub();
    var c1 := new Connection();
    c2 := new Connection();
    var s1 := Subscription(c1, "a", "", "", "alice");
    var v1 := h.Register(s1);
    assert h.Members() == {c1};
    var v2 := h.Register(Subscription(c2, "b", "", "", "alice"));
    h.Unregister(s1);
  }
}
