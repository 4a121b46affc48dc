# chatt-server hub, modelled in Dafny

The chat server relays text messages between websocket clients. Clients
are grouped into named rooms, which can have a password, or into direct
conversations between two users. Its core is the hub in `hub/hub.go`. The
hub owns three tables:

- `Rooms`: room key → set of member connections.
- `RoomPassword`: room key → password; "" means none.
- `Users`: the names considered online.

The hub's event loop handles three kinds of event, one at a time:
register, unregister and broadcast. Each connection owns a buffered
outbound queue with room for 256 payloads. A reader loop turns inbound
frames into broadcast events. A writer loop drains the queue onto the
websocket.

The model has these modules:

- `GoStrings` (`go_strings.dfy`): the Go string semantics the code relies
  on. This is Go's `<` on strings, a strict total order proved here, and
  `strings.Split` with a one-character separator. `Join` undoes `Split`,
  `Split` undoes `Join` on pieces free of the separator, and `Split` gives
  one more piece than there are separators.
- `Util` (`util.dfy`): `createUserChatKey`, the key of a direct
  conversation.
- `Types` (`types.dfy`): `message`, `subscription`, the events sent to the
  hub, and the `Connection` class. A connection's queue is the sequence
  `send` plus a `closed` flag. `wire` records the frames written to its
  websocket.
- `Hub` (`hub.dfy`): the class `Hub` holding the three tables. Its methods
  `Register`, `Unregister` and `Broadcast` are the three cases of
  `Run`'s `select`. `FanOut` and `Deliver` are the delivery loop and one
  iteration of it. The invariant `Valid` states three things:
  - every member's queue is open;
  - a connection belongs to at most one room;
  - every room has a password entry.

  Closing a closed channel or sending on one panics in Go. Because of
  `Valid`, the hub never does either.
- `Client` (`client.dfy`): the timing constants, the parsing of the
  `roomName` query, the message the reader builds, `readPump`, `writePump`
  and `ServeWs`.
- `Server` (`server.dfy`): the main.go handlers. This covers the slicing
  of the Authorization header, `GET /users`, `POST /users` and
  `GET /rooms`.
- `Scenarios` (`scenarios.dfy`): short runs of the hub. They show what its
  rules add up to, using only the contracts.

The model keeps the code's two cleanup quirks. Unregister's cleanup
(hub/hub.go:85-86) and Broadcast's cleanup (hub/hub.go:111) delete under
the raw room name, not under the computed key. As a result:

- An emptied room keeps its key, an empty member set and its password
  (`Hub.Hub.Unregister`, `Scenarios.StalePassword`).
- The rooms listing still shows that room as locked.
- Emptying a direct conversation deletes the entry under "". That key is
  the one where subscriptions naming neither a room nor a receiver are
  filed. Its members lose their membership, but their queues are never
  closed (`Scenarios.DirectChatCleanupDropsUnaddressed`).

Three further facts about the code that the model keeps:

- The rejection close frame uses code 1003, `CloseUnsupportedData`
  (hub/hub.go:64; section 7.4.1 of RFC 6455).
- An emptied room or direct conversation stays in `Rooms` under its key,
  because cleanup deletes under the raw room name (hub/hub.go:84-86 and
  111). The one exception is the key "" of subscriptions naming neither a
  room nor a receiver: its raw name is "" as well, so it is removed when
  it empties.
- The reader never sets a message's timestamp (hub/client.go:81-86), and
  the hub does not set it either, so it stays Go's zero time
  (`Types.ZeroTime`).

## Model

| member | source | states |
|---|---|---|
| `GoStrings.LessIrreflexive` | hub/util.go:4 | no string is smaller than itself under Go's `<` |
| `GoStrings.LessAsymmetric` | hub/util.go:4 | `a < b` excludes `b < a` |
| `GoStrings.LessTotal` | hub/util.go:4 | any two different strings are ordered one way or the other |
| `GoStrings.LessTransitive` | hub/util.go:4 | `a < b` and `b < c` give `a < c` |
| `GoStrings.IndexOf` | hub/client.go:141 | the position found holds the separator and no earlier position does |
| `GoStrings.Split` | hub/client.go:141 | `strings.Split` yields at least one piece and no piece contains the separator |
| `GoStrings.JoinSplit` | hub/client.go:141 | gluing the pieces back with the separator gives the input again |
| `GoStrings.SplitJoin` | hub/client.go:141 | splitting the join of separator-free pieces gives back exactly those pieces |
| `GoStrings.SplitCount` | main.go:79-80 | the number of pieces is the number of separators plus one |
| `Util.UserChatKey` | hub/util.go:3-8 | a pair key starts with "user:" and is `\|a\| + \|b\| + 6` long |
| `Util.UserChatKeyCommutes` | hub/util.go:3-8 | both parties of a conversation compute the same key |
| `Util.UserChatKeyOrdersNames` | hub/util.go:4-7 | the smaller name comes first; equal names give "user:a:a" |
| `Util.UserChatKeyIsNoRoomKey` | hub/util.go:5-7 | a pair key never equals a "room:" key |
| `Util.UserChatKeysCanCollide` | hub/util.go:5-7 | names containing ':' let two different pairs share one key |
| `Types.Connection.constructor` | hub/client.go:148 | a new connection has an empty, open queue and nothing written |
| `Types.Connection.TrySend` | hub/hub.go:105-107 | a non-blocking send succeeds iff the queue holds fewer than 256 items, and then appends |
| `Types.Connection.CloseSend` | hub/hub.go:65 | closing keeps the buffered items; the queue must be open |
| `Types.Connection.Receive` | hub/client.go:101-102 | a receive yields buffered items in FIFO order, then "closed" once drained, else waits |
| `Types.Connection.Write` | hub/client.go:117-120 | a write appends one frame to the websocket |
| `Hub.RoomKey` | hub/hub.go:54 | a room key is "room:" followed by the room name |
| `Hub.SubscriptionKey` | hub/hub.go:52-57 | the key is "" exactly when the subscription names neither room nor receiver |
| `Hub.DestinationKey` | hub/hub.go:93-98 | a message with neither room nor user reaches no room |
| `Hub.RawRoomIsNotKey` | hub/hub.go:84-87 | the raw room name that cleanup deletes equals the filed key only when both are "" |
| `Hub.RawRoomIsNotDestination` | hub/hub.go:110-111 | a message's raw room name is never its destination key |
| `Hub.Hub.constructor` | hub/hub.go:12-19 | the hub starts with empty tables, satisfying its invariant |
| `Hub.Hub.Register` | hub/hub.go:51-71 | first joiner creates the room and fixes its password; a mismatched non-empty password gets close code 1003, a closed queue and no table change; otherwise join and go online; no existing password is rewritten |
| `Hub.Hub.Unregister` | hub/hub.go:72-91 | a member is removed and its queue closed; a non-member is left untouched; an emptied room loses only the entries under the raw room name, so it stays with its password; the sender always goes offline |
| `Hub.Hub.Broadcast` | hub/hub.go:92-103 | encoding failure changes nothing; otherwise each member with room in its queue gets the same payload; full ones are closed and removed; other keys, passwords and users are untouched |
| `Hub.Hub.FanOut` | hub/hub.go:104-114 | the delivery loop has the same outcome in every visiting order; an emptied set deletes the raw room name's entry |
| `Hub.Hub.Deliver` | hub/hub.go:105-112 | one member: deliver, or close and remove it when its queue is full |
| `Client.PingPeriodBeforePongWait` | hub/client.go:17-23 | the ping period is 54 s, nine tenths of the 60 s pong wait, and strictly shorter |
| `Client.ParseRoomQuery` | hub/client.go:141-145 | the room is the text before the first ':'; the password is the text up to the next ':', or "" without ':' |
| `Client.RoomQueryRoundTrip` | hub/client.go:141-145 | "room:password" and "room" parse back to their room and password |
| `Client.MessageFrom` | hub/client.go:81-86 | sender and data come from the subscription and the frame, with no timestamp; the message goes to the key Register used, unless the subscription names neither room nor receiver |
| `Client.ReadPump` | hub/client.go:60-88 | one broadcast per frame, in order, then exactly one unregister for its own subscription |
| `Client.WritePump` | hub/client.go:91-115 | queued payloads go out as text frames in FIFO order; a close frame and a stop follow only once the queue is closed and drained |
| `Client.ServeWs` | hub/client.go:122-160 | the query is split into room and password, and a fresh connection with an empty open queue is registered before the pumps; the hub's new tables are exactly as `Register` gives them for each verdict: created with the password, joined with passwords unchanged, or rejected with nothing changed |
| `Server.ParseAuthorization` | main.go:72-87 | a header shorter than 7 gets "Token required"; a token without exactly one '.' aborts the handler; otherwise the two halves around the '.' |
| `Server.AuthorizationSchemeIgnored` | main.go:78 | the first seven characters are dropped unchecked, so any scheme works like "Bearer " |
| `Server.HandleWs` | main.go:70-141 | a refused header or token leaves the hub untouched; a verified name becomes the sender of a fresh subscription, and the hub's tables change exactly as `Register` gives them for its verdict |
| `Server.ListUsers` | main.go:145-148 | exactly the names in `Users`, each once |
| `Server.PostUsers` | main.go:153-228 | an empty name gets 400; a store failure gets 401 or 500; success inserts the name into `Users` directly, leaving the room tables alone |
| `Server.RoomInfoOf` | main.go:238-241 | an entry names the room after "room:" and is locked iff its password is non-empty |
| `Server.ListRooms` | main.go:235-243 | panics (None) iff some key is shorter than 5; otherwise exactly the "room:" keys, each once, with the lock flag |
| `Scenarios.ProtectedRoom` | hub/hub.go:58-71 | with "secret" set by X, Y joins with it and Z's "wrong" is rejected; the room holds exactly X and Y |
| `Scenarios.StalePassword` | hub/hub.go:84-87 | after the last member leaves, the room persists empty; a joiner without the old password is rejected, and the listing shows it locked |
| `Scenarios.UnaddressedBreaksListing` | main.go:237 | one subscription with neither room nor receiver makes the rooms listing panic |
| `Scenarios.DirectChatCleanupDropsUnaddressed` | hub/hub.go:84-87 | emptying a direct conversation deletes the "" room, and its member's queue is never closed |
| `Scenarios.OfflineWhileConnected` | hub/hub.go:91 | a user goes offline when one of its two connections leaves, while the other is still a member |

## Left out

- Goroutines, channels and `select` are not modelled as concurrency. `Run`'s endless loop becomes one method call per event.
- Unsynchronised access to `Users` and `Rooms` from main.go and its data races are out of scope. The same goes for the hub writing a close frame while `writePump` also writes.
- The transport is out of scope: the websocket upgrade and its failure, and read and write deadlines. It also covers the pong handler, `SetReadLimit` and `ws.Close`. `MaxMessageSize` is a constant only.
- The writer's ping ticker and the write errors that end `writePump` are left out.
- `Client.WritePump` describes one drain up to the point where the writer waits. The endless wait itself is not modelled.
- `url.QueryUnescape` is taken as already applied. Its error path, which closes the socket and returns, is not modelled.
- `json.Marshal` of a message is a parameter of `Broadcast` (`encode`), and `None` means marshalling failed. The JSON layout of the payload is not modelled.
- Token verification is a parameter of `Server.HandleWs`. This covers base64, HMAC, the JSON token body, `time.Parse` and the expiry check.
- The password store of `POST /users` (bbolt, bcrypt) is a parameter, and so is the signed token it returns.
- Logging, `fmt.Printf`, `serveDefault`, `http.ServeFile`, `ListenAndServe` and process start-up are out of scope.
- `http.Error` appends a newline to the body, and `Server.Response` bodies leave it out.
- Strings are sequences of characters, not bytes. Go compares strings as UTF-8 bytes, which gives the same order as comparing code points. But Go's `len` and slicing count bytes: `len("Bearer ")` and `authorization[len("Bearer "):]` (main.go:73, 78) cut after seven bytes. `Server.ParseAuthorization` cuts after seven characters, so the two differ when the header's first characters are not ASCII.
- `Scenarios.StalePassword`: the listing is shown to contain the locked "lobby" entry. That it is the only entry is not stated.
- `Server.PostUsers`: the 500 answers when marshalling the token or writing the HMAC fails after a successful store (main.go:205-218) are not modelled. Those library calls are treated as infallible.
