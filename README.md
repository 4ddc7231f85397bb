# Real-time chat: room bookkeeping and the rules that gate it

This project models the core of a chat application that has three parts.

- **A FastAPI socket server.** Its `ConnectionManager` keeps, for each room id, the set of open sockets. Its `/ws/{room_id}` endpoint stores each received message in SQLite and then broadcasts it to the room.
- **A Django back end.** It has two halves:
  - the Channels `ChatConsumer`, which handles one socket each: token, groups, join, send and typing;
  - the HTTP views: registration, the friend-request state machine, user search, room creation and message history.
- **A browser `WebSocketService`.** It opens the socket, reconnects at most five times and sends the three outgoing frame kinds.

Each module follows one component.

| Module | Models |
|---|---|
| `Common` | `Option` and `Result` |
| `Text` | Python's `str.strip`, `in`, `split` and `str(int)`, and the ASCII case folding of an SQLite `LIKE` |
| `Json` | decoded JSON scalars, Python truthiness, `str()`, and Django's integer coercion of a primary-key lookup |
| `Store` | the ORM tables as sequences, where row `i` has key `i + 1` |
| `Manager` | `main.py` |
| `Consumer` | `consumers.py` |
| `Views` | `views.py` |
| `Client` | `websocket.ts` |
| `Protocol` | lemmas about how the client and the consumer meet |

Where the source changes state in place, the model does too.
- `ConnectionManager`, `ChatConsumer`, the channel layer, `Database` and `WebSocketService` are classes. Their methods state the whole new state.
- Send outcomes are an input: the set of connections whose send raises.
- Clock readings, row ids and the token-to-user decoding are also inputs.
- The browser's side of the socket is made explicit. `SocketStateChanged` moves the socket's `readyState`. `TimerFires` runs a scheduled reconnect. Whether `new WebSocket(url)` throws is a parameter of `Connect`.

The code itself shows seven points worth knowing. The model follows the code on each.
- **Swapped arguments.** The endpoint passes `sender_id` where `save_message_to_db` expects `room_id`, and the other way round. The stored row therefore files the frame's sender id as its chat room (`EndpointSwapsRoomAndSender`).
- **Missing delete handler.** `receive` calls a `delete_chat_message` that does not exist. A `delete_message` frame therefore always ends in one `error` frame.
- **Different field names.** The client names the room `room_id`, but the consumer reads `chat_room_id`. Every join, send and typing frame from the client is therefore a no-op on the server (`ClientFramesNameNoRoom`, `ClientMessagesAreNeverSaved`).
- **URL without a room.** The client connects to `/ws`, which carries no room id. The FastAPI route is `/ws/{room_id}`, and the Channels routing is not part of this model.
- **Reconnect drops the token.** A scheduled reconnect calls `connect()` with no arguments. The new socket therefore carries no token, and its consumer has no user (`ReconnectLosesIdentity`).
- **Duplicate check before normalisation.** `register` looks for the username as given, but `create_user` stores its NFKC form. A name that differs from a taken one only before normalisation reaches the unique constraint and answers 500 instead of 400 (`RegisterCheck`).
- **Failed decode keeps the socket.** When `json.loads` or a missing key raises in the endpoint loop, the handler ends without calling `manager.disconnect`. Only `WebSocketDisconnect` reaches it, so the socket stays in its room (`EndpointReceive`).

## Model

| member | source | states |
|---|---|---|
| Manager.Connected | Project/app/main.py:23-27 | the room's set gains the socket, is created when missing, and every other room is unchanged |
| Manager.Disconnected | Project/app/main.py:29-33 | an absent room is left alone; otherwise the socket leaves the set and a set left empty loses its key; other rooms are unchanged |
| Manager.Broadcasted | Project/app/main.py:35-41 | an absent room is left alone; otherwise the room's set loses exactly the failing connections and its key stays |
| Manager.OnlineCount | Project/app/main.py:103 | the size of the room's set, 0 for an absent room |
| Manager.ConnectionManager.constructor | Project/app/main.py:20-21 | no rooms |
| Manager.ConnectionManager.Connect | Project/app/main.py:23-27 | the new map is `Connected` of the old one |
| Manager.ConnectionManager.Disconnect | Project/app/main.py:29-33 | the new map is `Disconnected` of the old one |
| Manager.ConnectionManager.BroadcastToRoom | Project/app/main.py:35-41 | every connection of the snapshot is tried exactly once, a failure does not stop the rest, the delivered set is the snapshot minus the failing ones, and the new map is `Broadcasted` of the old one |
| Manager.ConnectionManager.OnlineUsers | Project/app/main.py:101-104 | the online count of the current map |
| Manager.ConnectAdds | Project/app/main.py:23-27 | after connect the socket is in the room, nothing was lost from it, and no other room changed |
| Manager.DisconnectIdempotent | Project/app/main.py:29-31 | disconnect from an absent room changes nothing, and disconnecting twice equals disconnecting once |
| Manager.ConnectDisconnectKeepNoEmptyRooms | Project/app/main.py:25-33 | connect and disconnect keep "no room maps to an empty set" |
| Manager.DisconnectUndoesConnect | Project/app/main.py:23-33 | on a map without empty rooms, disconnect after connect of a new socket restores the map |
| Manager.BroadcastCanLeaveEmptyRoom | Project/app/main.py:36-41 | a broadcast where every send fails leaves the key mapped to an empty set |
| Manager.OnlineCountFollowsOperations | Project/app/main.py:101-104 | the count rises by one for a new socket, falls by one for a present one, and falls by the number of failing members on broadcast |
| Manager.SaveMessageToDb | Project/app/main.py:49-72 | one row is appended with its columns bound in parameter order; the reply carries the new row id and the sender's username or `"Unknown"` |
| Manager.SaveArguments | Project/app/main.py:79-86 | reading the frame raises unless it is an object with `content` and `sender_id`; otherwise the arguments are content, the frame's sender id and the path's room id, in that order |
| Manager.EndpointReceive | Project/app/main.py:78-95 | a frame that raises changes nothing and keeps the socket connected; otherwise one row is stored and its reply is broadcast to the path's room |
| Manager.EndpointSwapsRoomAndSender | Project/app/main.py:82-86 | the stored row's chat room is the frame's `sender_id` and its sender is the path's room id |
| Text.Strip | Project/app/consumers.py:81 | the result is empty exactly when the text is all whitespace, it starts and ends with non-whitespace, and it is the text without its leading and trailing whitespace |
| Text.SplitJoin | Project/app/consumers.py:12 | joining the pieces of a split with the separator gives back the text |
| Text.SplitPiecesFree | Project/app/consumers.py:12 | no piece of a split holds the separator |
| Text.LastPieceFollowsLastSeparator | Project/app/consumers.py:12 | the last piece of a split is the text after some occurrence of the separator and holds none itself |
| Text.NatToStringInjective | Project/app/consumers.py:57 | distinct naturals print differently |
| Text.IntToStringInjective | Project/app/consumers.py:57 | distinct integers print differently |
| Json.AsKey | Project/app/views.py:118 | an integer is its own key, a boolean is 1 or 0, `null` matches no row, a string of digits is its decimal value, and any other string makes the lookup raise |
| Json.PrintedKeyReadsBack | Project/app/views.py:118 | a key sent as its decimal text is read back as that key |
| Store.LookupId | Project/app/consumers.py:186 | the row is found exactly when the value coerces to the key of an existing row, and that key is the found id; it does not exist exactly for `null` or a key with no row; the lookup raises exactly when the value cannot be coerced to an integer |
| Store.FriendIds | Project/app/views.py:256-257 | a user is in the set exactly when some friendship row links them to the caller |
| Store.UserFromToken | Project/app/consumers.py:157-167 | an empty or absent token names nobody; otherwise the decoded user when that user exists |
| Consumer.TokenFollowsLastMarker | Project/app/consumers.py:12 | there is no token exactly when the query string lacks `token=`; otherwise the token is what follows the last `token=` |
| Consumer.AccountOf | Project/app/consumers.py:13 | the consumer has a user exactly when the token resolves, with that user's id and username |
| Consumer.Dispatch | Project/app/consumers.py:30-48 | unparsable JSON and a non-object fail; `join_room`, `send_message` and `typing` reach their handlers; `delete_message` fails; any other type is ignored |
| Consumer.RoomIdField | Project/app/consumers.py:52-55 | a room id exists exactly when `chat_room_id` is present and truthy |
| Consumer.GroupNameInjective | Project/app/consumers.py:57 | two integer room ids share a group name only when they are equal |
| Consumer.IntegerGroupNameValid | Project/app/consumers.py:57-62 | the group name of an integer room id that prints in fewer than 95 characters passes the channel layer's name check |
| Consumer.SpacedRoomIdRefused | Project/app/consumers.py:57-62 | the group name of a room id whose text holds a space fails the channel layer's name check |
| Consumer.GroupAdded | Project/app/consumers.py:59-62 | the group gains the channel and no other group changes |
| Consumer.GroupDiscarded | Project/app/consumers.py:25-28 | the group loses the channel, no other group changes, and no group appears |
| Consumer.DiscardedFromAll | Project/app/consumers.py:23-28 | every listed group loses the channel and every other group is unchanged |
| Consumer.HandlerFrame | Project/app/consumers.py:124-154 | `user_joined` and `new_message` always forward the event's fields; a typing event is dropped exactly at the channel that sent it and otherwise forwards its name, flag and room id |
| Consumer.Fanout | Project/app/consumers.py:94-100 | the recipients are exactly the group members whose handler sends a frame, each receiving that frame |
| Consumer.TypingSkipsItsSender | Project/app/consumers.py:138-146 | a typing event reaches exactly the group's members other than its sender |
| Consumer.NewMessageReachesEveryMember | Project/app/consumers.py:124-136 | a new message reaches every member, the sender included, with the saved message's fields |
| Consumer.UserJoinedReachesEveryMember | Project/app/consumers.py:148-154 | a join announcement reaches every member, the joiner included, with the joiner's name and the room id |
| Consumer.JoinedChannelReceivesMessages | Project/app/consumers.py:59-62 | a channel that has joined a group receives every new message sent to it |
| Consumer.JoinKeepsTracking | Project/app/consumers.py:59-64 | after a join, every group holding the channel is still among the recorded groups |
| Consumer.DisconnectLeavesNoSubscription | Project/app/consumers.py:23-28 | once every recorded group is discarded, no group holds the channel |
| Consumer.ChannelLayer.GroupAdd | Project/app/consumers.py:59-62 | a name failing the layer's check raises and changes nothing; otherwise the new groups are `GroupAdded` of the old ones |
| Consumer.ChannelLayer.GroupDiscard | Project/app/consumers.py:25-28 | a name failing the layer's check raises and changes nothing; otherwise the new groups are `GroupDiscarded` of the old ones |
| Consumer.ChannelLayer.GroupSend | Project/app/consumers.py:69-76 | a name failing the layer's check raises and delivers nothing; otherwise each member receives what `Fanout` gives it |
| Consumer.AnonymousValue | Project/app/consumers.py:192 | `anonymous_name or 'Anonymous'` is the name itself when truthy, else `'Anonymous'` |
| Consumer.SaveMessage | Project/app/consumers.py:183-222 | a message is saved exactly when the room exists and is anonymous, or a truthy `anonymous_name` is given, or the user is a participant; the anonymous branch echoes the raw `anonymous_name or 'Anonymous'` and stores its `str`; the other branch echoes and stores an empty name; the sender name is the username or that raw value |
| Consumer.ContentField | Project/app/consumers.py:81 | text content is stripped, and any other content makes `.strip()` raise |
| Consumer.SendOutcome | Project/app/consumers.py:80-90 | nothing is saved without a room id or with blank content, and otherwise the answer of `save_message` |
| Consumer.ChatConsumer.Connect | Project/app/consumers.py:11-21 | the token is parsed from the query string, the user resolved, no groups recorded, and the greeting sent |
| Consumer.ChatConsumer.Disconnect | Project/app/consumers.py:23-28 | the channel is discarded from every recorded group, none of which the layer refuses, so a tracked channel ends up in no group |
| Consumer.ChatConsumer.OnEvent | Project/app/consumers.py:124-154 | the client receives the handler's frame, or nothing for its own typing event |
| Consumer.ChatConsumer.JoinRoom | Project/app/consumers.py:50-76 | without a room id nothing changes; a group name the layer refuses raises before anything changes; otherwise the channel joins `chat_<id>` and records it, an unreadable id raises after that, and `user_joined` goes to every member only for an existing non-anonymous room |
| Consumer.ChatConsumer.SendChatMessage | Project/app/consumers.py:78-100 | non-text content raises; otherwise a message is stored only when `SendOutcome` saves it, and then sent to every member, or raises after the save when the layer refuses the group name |
| Consumer.ChatConsumer.HandleTyping | Project/app/consumers.py:102-122 | without a room id nothing is sent; a refused group name raises; otherwise the typing event goes to the group, never to this channel |
| Consumer.ChatConsumer.Receive | Project/app/consumers.py:30-48 | each failure adds exactly one `error` frame and changes nothing else, an ignored frame changes nothing, and for each handler the groups, stored messages, error frame and per-channel deliveries are those the handler produces; channel tracking and the validity of recorded group names are preserved |
| Views.RegisterCheck | Project/app/views.py:16-33 | missing credentials are refused first, then a username already taken as given; a password that is not text, an email `normalize_email` cannot handle, or a normalised name that is already taken each answer 500; registration succeeds exactly when none of these holds, and the new row has the normalised name and the normalised email |
| Views.NormalizeEmail | Project/app/views.py:29-31 | a falsy or missing email becomes `''`; a truthy email that is not text raises; a text without `@` is kept unchanged; otherwise the stripped text keeps everything up to its last `@` and lower-cases the domain after it |
| Views.NormalizeEmailIdempotent | Project/app/views.py:29-31 | normalising a stored email again changes nothing |
| Views.EchoedUsername | Project/app/views.py:35-39 | the echoed name prints as the stored name, is text exactly when the request's name is, and is the request's own value otherwise |
| Views.RegisterKeepsUsernamesUnique | Project/app/views.py:26-33 | a successful registration keeps usernames unique |
| Views.Register | Project/app/views.py:16-42 | a refused request changes nothing; otherwise exactly one user is appended, and the response carries its key and `user.username`: the normalised text, or the request's own value when that is not text |
| Views.SendRequestCheck | Project/app/views.py:105-147 | the checks run in order (authenticated, `receiver_id` given, receiver lookup succeeds, receiver exists, not oneself, not friends, no pending request either way), each error arises exactly when the earlier checks pass and its own fails, a lookup that raises answers 500, and success means all pass |
| Views.SendFriendRequest | Project/app/views.py:105-147 | a refused request changes nothing; otherwise exactly one pending request from the caller to the receiver is appended |
| Views.SendKeepsFriendGraphValid | Project/app/views.py:126-137 | a request that passes the checks keeps the request and friendship tables valid, and is then pending between the two users |
| Views.RespondCheck | Project/app/views.py:152-187 | no user is refused first; a body that is not an object answers 500; any action other than accept or reject is refused; a request that is not pending and addressed to the caller is not found; each error arises exactly in its case, and success means all checks pass |
| Views.RespondFriendRequest | Project/app/views.py:152-187 | accept marks the request accepted and appends one friendship; reject marks it rejected and adds nothing; a refusal changes nothing |
| Views.RespondKeepsFriendGraphValid | Project/app/views.py:165-182 | answering a pending request keeps the tables valid, leaves no request pending between the two users, and after accept they are friends |
| Views.StatusOf | Project/app/views.py:269-275 | friend comes first, then `request_sent`, then `request_received`, then `none` |
| Views.StatusIsExclusive | Project/app/views.py:256-275 | on valid tables the relations are exclusive, so `request_sent` and `request_received` each hold exactly when the request exists |
| Views.MatchingFrom | Project/app/views.py:252-254 | every matching user other than the caller is listed once, in key order |
| Views.SearchPage | Project/app/views.py:252-254 | at most 20 matching users other than the caller in key order, and all of them when fewer than 20 are listed |
| Views.ListEntries | Project/app/views.py:267-282 | one entry per user on the page, in page order, carrying that user's key, username and email and the status the priority order of `StatusOf` gives it |
| Views.SearchUsers | Project/app/views.py:241-284 | an unauthenticated caller is refused, a blank query answers no users, and otherwise each user on the page is listed with its status |
| Views.SearchExcludesCaller | Project/app/views.py:254 | the results never include the caller and name existing users |
| Views.CreateRoomCheck | Project/app/views.py:289-339 | an anonymous room needs no user and is named `name or 'Anonymous Chat'`; other types need a user; a private room refuses, each exactly in its case, a missing `other_user_id`, a lookup that raises, a user that does not exist and a user who is not a friend, and otherwise opens the chat with that user; any other type always becomes a group named `str(name)` holding only the creator |
| Views.CreateChatroom | Project/app/views.py:289-339 | a new room is appended exactly when one is created, and the response shows `chatroom.name` as assigned: the request's own `name` value, or `'Anonymous Chat'` for a falsy anonymous name, whose `str` is the stored name; a refusal or a private chat adds no room |
| Views.RoomMessageIds | Project/app/views.py:352 | exactly the room's messages, in table order |
| Views.MessageEntryOf | Project/app/views.py:356-363 | `is_anonymous` holds exactly when `anonymous_name` is non-empty; the sender name is then that name, else the sender's username when the sender exists, else `'Unknown'` |
| Views.GetMessages | Project/app/views.py:343-370 | a missing room is not found; a non-anonymous room is refused unless the caller is a participant; otherwise one entry per message of the room |
| Views.RoomMessagesInTimestampOrder | Project/app/views.py:352 | when timestamps never decrease along the table, table order is timestamp order |
| Client.FormEncode | chatapp_frontend/src/services/websocket.ts:36-39 | the serialized value holds no `=` and no `&`, and text of unreserved characters is kept as is |
| Client.BuildUrl | chatapp_frontend/src/services/websocket.ts:35-46 | the query is `token=` only for a non-empty token without the flag; it is `anonymous=true` for the flag; otherwise there is no query string |
| Client.SerializedQuery | chatapp_frontend/src/services/websocket.ts:36-46 | what `params.toString()` yields in the two non-empty cases |
| Client.JwtTokenUnencoded | chatapp_frontend/src/services/websocket.ts:38-39 | a token in JWT form reaches the URL unchanged |
| Client.WithAnonymousName | chatapp_frontend/src/services/websocket.ts:120 | `anonymous_name` is added exactly when a non-empty name is given, and the other fields are untouched |
| Client.JoinFrame | chatapp_frontend/src/services/websocket.ts:117-121 | the join frame's type and `room_id`, and no other field but `anonymous_name` |
| Client.MessageFrame | chatapp_frontend/src/services/websocket.ts:128-133 | the message frame's type, `room_id` and content, and no other field but `anonymous_name` |
| Client.TypingFrame | chatapp_frontend/src/services/websocket.ts:140-145 | the typing frame's type, `room_id` and `is_typing`, and no other field but `anonymous_name` |
| Client.WebSocketService.constructor | chatapp_frontend/src/services/websocket.ts:20-26 | no socket, no attempts, no callbacks, no timer |
| Client.WebSocketService.IsConnected | chatapp_frontend/src/services/websocket.ts:170-172 | true exactly when a socket exists and is OPEN |
| Client.WebSocketService.HandleError | chatapp_frontend/src/services/websocket.ts:166-168 | the error callback is invoked when registered |
| Client.WebSocketService.Connect | chatapp_frontend/src/services/websocket.ts:28-55 | no effect while connecting or OPEN; otherwise a socket on `BuildUrl` while connecting, or, when creation throws, `isConnecting` cleared and the error reported |
| Client.WebSocketService.OnOpen | chatapp_frontend/src/services/websocket.ts:60-65 | `isConnecting` cleared, attempts reset to 0, the connect callback invoked when registered |
| Client.WebSocketService.OnMessage | chatapp_frontend/src/services/websocket.ts:67-74 | a frame that parses reaches the message callback; one that does not is dropped |
| Client.WebSocketService.ScheduleReconnect | chatapp_frontend/src/services/websocket.ts:93-100 | the attempt counter rises by one and a fresh timer is set |
| Client.WebSocketService.OnClose | chatapp_frontend/src/services/websocket.ts:76-84 | a reconnect is scheduled exactly on an unclean close with fewer than 5 attempts; the counter never exceeds 5 |
| Client.WebSocketService.OnError | chatapp_frontend/src/services/websocket.ts:86-90 | `isConnecting` cleared and the error reported |
| Client.WebSocketService.TimerFires | chatapp_frontend/src/services/websocket.ts:97-99 | the timer is spent and `connect()` runs with default arguments: nothing else changes while connecting or open; otherwise the new socket's URL is the bare base URL, or, when creation throws, `isConnecting` is cleared and the error reported |
| Client.WebSocketService.Disconnect | chatapp_frontend/src/services/websocket.ts:102-113 | only the latest timer is cleared, an existing socket is closed with 1000 (normal closure, section 7.4.1 of RFC 6455), the socket is dropped and every callback removed |
| Client.WebSocketService.Register | chatapp_frontend/src/services/websocket.ts:150-164 | exactly the named callback becomes registered |
| Client.WebSocketService.JoinRoom | chatapp_frontend/src/services/websocket.ts:115-124 | the join frame is sent only while OPEN |
| Client.WebSocketService.SendMessage | chatapp_frontend/src/services/websocket.ts:126-136 | the message frame is sent only while OPEN |
| Client.WebSocketService.SendTyping | chatapp_frontend/src/services/websocket.ts:138-148 | the typing frame is sent only while OPEN |
| Client.UncleanCloses | chatapp_frontend/src/services/websocket.ts:76-100 | any number of unclean closes after an open schedule at most five reconnects |
| Protocol.TokenAfterSoleMarker | Project/app/consumers.py:12 | after a leading `token=`, a value free of `=` is read back exactly |
| Protocol.TokenReachesConsumer | chatapp_frontend/src/services/websocket.ts:35-46 | the consumer parses exactly the serialized token the client put in its URL, and a JWT unchanged |
| Protocol.AnonymousClientHasNoUser | chatapp_frontend/src/services/websocket.ts:40-42 | an anonymous client's consumer sees no token and has no user |
| Protocol.ReconnectLosesIdentity | chatapp_frontend/src/services/websocket.ts:97-99 | the reconnect URL has no query string, so the new consumer has no user |
| Protocol.ClientFramesNameNoRoom | chatapp_frontend/src/services/websocket.ts:119 | no client frame carries the `chat_room_id` the consumer reads |
| Protocol.ClientFramesDispatch | Project/app/consumers.py:33-40 | each client frame reaches the handler for its type |
| Protocol.ClientMessagesAreNeverSaved | Project/app/consumers.py:80-85 | a message sent by the client is never saved, whatever the tables hold |
| Protocol.SavedMessageShowsInHistory | Project/app/consumers.py:188-206 | a message filed under a name shows in the history as anonymous under that name; one filed by a participant shows under the sender's username |

## Left out

- The transport is not modelled: sockets, Channels, FastAPI, uvicorn, CORS, async scheduling and timer delays. Awaits are read as ordered steps, a send's outcome is an input, and the 3000 ms reconnect delay is not modelled.
- JWT encoding and decoding are not modelled. A token maps to a user id through an uninterpreted map. `login`, which issues tokens, is not part of this model.
- The views' `get_user_from_token` header parsing is not modelled. Each view receives the caller its bearer token resolves to, or `None`.
- `profile`, `get_friend_requests`, `get_friends` and `get_chatrooms` are not part of this model. They only read and list rows.
- The definitions of `Friendship.are_friends`, `get_friends` and `ChatRoom.get_private_chat` are not part of this model. The shipped `models.py` does not define `ChatRoom`, `FriendRequest` or `Friendship`.
  - `are_friends` is taken to be "some friendship row links the two users, in either column order".
  - `get_friends` is taken to be "the other user of every such row".
  - `FriendRequest.status` is taken to default to `'pending'`, since `send_friend_request` creates a request without one.
- Views.CreateChatroom: the private-chat result names the two users and adds no room. What `get_private_chat` looks up or creates is not modelled.
- Views.RespondFriendRequest: the `get_private_chat` call after an accept is not modelled.
- Consumer.SaveMessage: a message saved outside the anonymous branch is filed with an empty `anonymous_name`. The model's default for that field is not shown in the source.
- Views.GetMessages: it lists a room's messages in table order, not by `order_by('timestamp')`. `RoomMessagesInTimestampOrder` shows the two agree whenever timestamps never decrease along the table. The order among equal timestamps is not modelled.
- Views.SearchPage: the users are taken in key order. The query sets no ordering, so the database's own row order is not modelled.
- Views.CreateRoomCheck: a group room stores `str(name)`. A `null` name is filed as `None`, not rejected by a constraint the missing `ChatRoom` model might declare.
- Views.RegisterCheck: NFKC normalisation of the username is a parameter, since the Unicode tables are not modelled. Django's `UserManager.create_user`, `normalize_email` and `make_password` are not part of this model beyond the behaviour the rows above describe: password hashing is not modelled and `max_length` limits on the columns are not enforced.
- Views.NormalizeEmail: the domain is lower-cased for ASCII letters only; Python's `str.lower` also folds other letters.
- Json.AsKey: only strings of ASCII digits are accepted as keys. Django's `int()` also accepts signs, surrounding whitespace, underscores and non-ASCII digits; such strings are taken to make the lookup raise.
- Consumer.ValidGroupName: the layer's pattern writes digits as `\d`, which in Python also matches non-ASCII decimal digits; the model accepts ASCII digits only. The layer's check on the channel name is not modelled.
- JSON arrays and objects as field values are not modelled, and neither are floating-point numbers. Frames carry scalar values only.
- Client.FormEncode: the URL serializer is modelled per character, but the model does not prove it can be decoded.
- Timestamps are given integers, and their ISO formatting is not modelled.
- Message ids are the next row key. The `'timestamp': datetime.now()` a second time in `save_message_to_db` is the same clock reading as the row's.
- Views.MessageEntryOf: a sender key that names no user shows as `'Unknown'`; the source would raise there.
- `getReadyState` and the console logging are not modelled.
