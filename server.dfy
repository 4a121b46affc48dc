/** main.go: the HTTP handlers around the hub. The `/ws` handler slices
    the bearer token out of the Authorization header before handing the
    connection to ServeWs; `/users` and `/rooms` read the hub's tables
    directly, and a successful `POST /users` writes into `Users` directly,
    all outside the hub's event loop. */
module Server {
  import opened GoStrings
  import opened Types
  import opened Hub
  import Client

  /** `len("Bearer ")`. */
  const BearerPrefixLength: nat := 7

  /** What the `/ws` handler makes of the Authorization header
      (main.go:72-87): too short a header is refused with 401 "Token
      required"; a token without exactly one '.' makes `log.Panicln` abort
      the handler before it can answer; otherwise the token's two halves. */
  datatype TokenCheck = TokenRequired | Aborted | TokenParts(info: string, hash: string)

  /** The token is the header minus its first seven characters, whatever
      they are; "Bearer " itself is never checked. */
  function ParseAuthorization(header: string): (r: TokenCheck)
    ensures r == TokenRequired <==> |header| < BearerPrefixLength
    ensures r == Aborted <==> |header| >= BearerPrefixLength && Count(header[BearerPrefixLength..], '.') != 1
    ensures r.TokenParts? ==>
      && header[BearerPrefixLength..] == r.info + "." + r.hash
      && '.' !in r.info && '.' !in r.hash
  {
    if |header| < BearerPrefixLength then TokenRequired
    else
      var token := header[BearerPrefixLength..];
      var parts := Split(token, '.');
      SplitCount(token, '.');
      if |parts| != 2 then Aborted
      else
        JoinSplit(token, '.');
        assert Join(parts, '.') == parts[0] + ['.'] + parts[1];
        TokenParts(parts[0], parts[1])
  }

  /** Any seven characters serve as the scheme. */
  lemma AuthorizationSchemeIgnored(scheme: string, other: string, token: string)
    requires |scheme| == |other| == BearerPrefixLength
    ensures ParseAuthorization(scheme + token) == ParseAuthorization(other + token)
  {
    assert (scheme + token)[BearerPrefixLength..] == token;
    assert (other + token)[BearerPrefixLength..] == token;
  }

  /** The verdict of the external token verifier (base64, HMAC, JSON and
      expiry, main.go:89-136): the user name, a token that does not check
      out, or one past its expiry. */
  datatype Verification = Verified(name: string) | InvalidToken | TokenExpired

  datatype WsOutcome =
    | Unauthorized(reason: string)
    | HandlerAborted
    | Connected(sub: Subscription, verdict: Verdict)

  /** The `/ws` handler (main.go:70-141): the header check, then the
      external verifier, then ServeWs with the verified name as sender. */
  method HandleWs(h: Hub, header: string, verify: (string, string) -> Verification,
                  roomQuery: string, recvUserName: string) returns (o: WsOutcome)
    requires h.Valid()
    modifies h
    ensures h.Valid()
    ensures ParseAuthorization(header) == TokenRequired <==> o == Unauthorized("Token required")
    ensures ParseAuthorization(header) == Aborted <==> o == HandlerAborted
    ensures ParseAuthorization(header).TokenParts? ==>
      var t := ParseAuthorization(header);
      match verify(t.info, t.hash)
      case InvalidToken => o == Unauthorized("Invalid token")
      case TokenExpired => o == Unauthorized("Token expired")
      case Verified(name) =>
        && o.Connected? && o.sub.senderUserName == name && o.sub.recvUserName == recvUserName
        && Client.ParseRoomQuery(roomQuery) == Client.RoomChoice(o.sub.room, o.sub.password)
    ensures !o.Connected? ==> h.rooms == old(h.rooms) && h.roomPassword == old(h.roomPassword) && h.users == old(h.users)
    ensures o.Connected? ==>
      var key := SubscriptionKey(o.sub);
      && fresh(o.sub.conn)
      && (o.verdict == Created <==> key !in old(h.rooms))
      && (o.verdict == Rejected <==>
            key in old(h.rooms) && old(h.PasswordOf(key)) != "" && old(h.PasswordOf(key)) != o.sub.password)
      && (o.verdict == Created ==>
            h.rooms == old(h.rooms)[key := {o.sub.conn}] && h.roomPassword == old(h.roomPassword)[key := o.sub.password])
      && (o.verdict == Joined ==>
            h.rooms == old(h.rooms)[key := old(h.rooms)[key] + {o.sub.conn}] && h.roomPassword == old(h.roomPassword))
      && (o.verdict != Rejected ==> h.users == old(h.users) + {o.sub.senderUserName} && !o.sub.conn.closed)
      && (o.verdict == Rejected ==>
            && h.rooms == old(h.rooms) && h.roomPassword == old(h.roomPassword) && h.users == old(h.users)
            && o.sub.conn.closed && o.sub.conn.wire == [InvalidPasswordClose])
  {
    match ParseAuthorization(header)
    case TokenRequired => o := Unauthorized("Token required");
    case Aborted => o := HandlerAborted;
    case TokenParts(info, hash) =>
      match verify(info, hash)
      case InvalidToken => o := Unauthorized("Invalid token");
      case TokenExpired => o := Unauthorized("Token expired");
      case Verified(name) =>
        var s, v := Client.ServeWs(h, roomQuery, recvUserName, name);
        o := Connected(s, v);
  }

  /** `GET /users` (main.go:145-148): every online name, each once, in the
      map's (unspecified) order. */
  method ListUsers(h: Hub) returns (names: seq<string>)
    ensures forall u :: u in names <==> u in h.users
    ensures forall i, j | 0 <= i < j < |names| :: names[i] != names[j]
  {
    names := [];
    var rest := h.users;
    while rest != {}
      invariant rest <= h.users
      invariant forall u :: u in names <==> u in h.users - rest
      invariant forall i, j | 0 <= i < j < |names| :: names[i] != names[j]
      decreases rest
    {
      var u :| u in rest;
      assert u !in names;
      rest := rest - {u};
      names := names + [u];
    }
  }

  datatype StoreOutcome = Stored | WrongPassword | StoreFailed(err: string)

  datatype Response = Response(status: int, body: string)

  /** `POST /users` (main.go:153-228). The password store (bbolt and
      bcrypt) and the token it signs are external: `store` is how the store
      answered and `token` the token built afterwards. A success puts the
      name straight into the hub's `Users`, bypassing the event loop; the
      room tables are untouched. */
  method PostUsers(h: Hub, user: string, store: StoreOutcome, token: string) returns (resp: Response)
    modifies h
    ensures user == "" ==> resp == Response(400, "User is required")
    ensures user != "" && store == WrongPassword ==> resp == Response(401, "Invalid password")
    ensures user != "" && store.StoreFailed? ==> resp == Response(500, store.err)
    ensures user != "" && store == Stored ==> resp == Response(200, token)
    ensures h.users == if user != "" && store == Stored then old(h.users) + {user} else old(h.users)
    ensures h.rooms == old(h.rooms) && h.roomPassword == old(h.roomPassword)
  {
    if user == "" {
      return Response(400, "User is required");
    }
    match store
    case WrongPassword => resp := Response(401, "Invalid password");
    case StoreFailed(err) => resp := Response(500, err);
    case Stored =>
      h.users := h.users + {user};
      resp := Response(200, token);
  }

  /** One entry of the `/rooms` listing. */
  datatype RoomInfo = RoomInfo(name: string, lock: bool)

  predicate IsRoomKey(key: string) {
    |key| >= 5 && key[..5] == "room:"
  }

  /** The entry for a broadcast-room key: the name after "room:", locked
      when its password is non-empty. */
  function RoomInfoOf(h: Hub, key: string): (info: RoomInfo)
    requires IsRoomKey(key)
    reads h
    ensures RoomKey(info.name) == key
    ensures info.lock <==> h.PasswordOf(key) != ""
  {
    assert key == key[..5] + key[5..];
    RoomInfo(key[5..], h.PasswordOf(key) != "")
  }

  /** `GET /rooms` (main.go:235-243): one entry per "room:" key of `Rooms`,
      direct-conversation keys left out. `room[:5]` panics on a key shorter
      than five characters, and then there is no listing (None); the key ""
      of a subscription with neither room nor receiver is such a key. Emptied
      rooms that were never deleted are listed like any other. */
  method ListRooms(h: Hub) returns (r: Option<seq<RoomInfo>>)
    ensures r.None? <==> exists key | key in h.rooms :: |key| < 5
    ensures r.Some? ==> forall key | key in h.rooms && IsRoomKey(key) :: RoomInfoOf(h, key) in r.value
    ensures r.Some? ==> forall i | 0 <= i < |r.value| ::
      RoomKey(r.value[i].name) in h.rooms && r.value[i] == RoomInfoOf(h, RoomKey(r.value[i].name))
    ensures r.Some? ==> forall i, j | 0 <= i < j < |r.value| :: r.value[i].name != r.value[j].name
  {
    var rooms: seq<RoomInfo> := [];
    var rest := h.rooms.Keys;
    while rest != {}
      invariant rest <= h.rooms.Keys
      invariant forall key | key in h.rooms && key !in rest :: |key| >= 5
      invariant forall key | key in h.rooms && key !in rest && IsRoomKey(key) :: RoomInfoOf(h, key) in rooms
      invariant forall i | 0 <= i < |rooms| ::
        && RoomKey(rooms[i].name) in h.rooms && RoomKey(rooms[i].name) !in rest
        && rooms[i] == RoomInfoOf(h, RoomKey(rooms[i].name))
      invariant forall i, j | 0 <= i < j < |rooms| :: rooms[i].name != rooms[j].name
      decreases rest
    {
      var key :| key in rest;
      rest := rest - {key};
      if |key| < 5 {
        return None;
      }
      if key[..5] == "room:" {
        rooms := rooms + [RoomInfoOf(h, key)];
      }
    }
    return Some(rooms);
  }
}
