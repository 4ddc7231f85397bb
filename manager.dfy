/**
 * The FastAPI side of the chat server: `ConnectionManager`, the map from a
 * room id to the set of WebSockets open on `/ws/{room_id}`, the body of the
 * endpoint's receive loop that persists a message and then broadcasts it, and
 * the online-user count.  A WebSocket is an opaque connection id; whether a
 * `send_text` raises is an input (the set of failing connections).
 */
module Manager {
  import opened Common
  import opened Json

  type ConnId = nat

  /** `Dict[int, Set[WebSocket]]`. */
  type Rooms = map<int, set<ConnId>>

  /** The set a room holds, or the empty set for a room with no entry. */
  function RoomOf(m: Rooms, r: int): set<ConnId> {
    if r in m then m[r] else {}
  }

  /** No room key maps to an empty set. */
  predicate NoEmptyRooms(m: Rooms) {
    forall r :: r in m ==> m[r] != {}
  }

  /** `m` and `m'` agree on every room other than `r`. */
  ghost predicate SameElsewhere(m: Rooms, m': Rooms, r: int) {
    (forall q :: q != r ==> (q in m <==> q in m')) &&
    (forall q :: q != r && q in m ==> m'[q] == m[q])
  }

  /** The registry after `connect(ws, r)`. */
  function Connected(m: Rooms, ws: ConnId, r: int): (m': Rooms)
    ensures r in m' && m'[r] == RoomOf(m, r) + {ws}
    ensures SameElsewhere(m, m', r)
  {
    m[r := RoomOf(m, r) + {ws}]
  }

  /** The registry after `disconnect(ws, r)`: the room key goes once its set is empty. */
  function Disconnected(m: Rooms, ws: ConnId, r: int): (m': Rooms)
    ensures r !in m ==> m' == m
    ensures r in m && m[r] - {ws} != {} ==> r in m' && m'[r] == m[r] - {ws}
    ensures r in m && m[r] - {ws} == {} ==> r !in m'
    ensures SameElsewhere(m, m', r)
  {
    if r !in m then m
    else if m[r] - {ws} == {} then m - {r}
    else m[r := m[r] - {ws}]
  }

  /** The registry after a broadcast to `r` in which the sends to `failing` raised. */
  function Broadcasted(m: Rooms, r: int, failing: set<ConnId>): (m': Rooms)
    ensures r !in m ==> m' == m
    ensures r in m ==> r in m' && m'[r] == m[r] - failing
    ensures SameElsewhere(m, m', r)
  {
    if r in m then m[r := m[r] - failing] else m
  }

  /** `len(active_connections.get(room_id, set()))`. */
  function OnlineCount(m: Rooms, r: int): (n: nat)
    ensures r !in m ==> n == 0
    ensures n == |RoomOf(m, r)|
  {
    |RoomOf(m, r)|
  }

  predicate NoDuplicates<T(==)>(s: seq<T>) {
    forall i, j :: 0 <= i < j < |s| ==> s[i] != s[j]
  }

  function Elements<T>(s: seq<T>): set<T> {
    set i | 0 <= i < |s| :: s[i]
  }

  lemma ElementsAppend<T>(s: seq<T>, x: T)
    ensures Elements(s + [x]) == Elements(s) + {x}
  {
    var t := s + [x];
    assert t[|s|] == x;
    forall y | y in Elements(s) ensures y in Elements(t) {
      var i :| 0 <= i < |s| && s[i] == y;
      assert t[i] == y;
    }
  }

  class ConnectionManager {
    var activeConnections: Rooms

    constructor ()
      ensures activeConnections == map[]
    {
      activeConnections := map[];
    }

    /** `connect`: the socket is accepted and added to its room, creating the room's set if needed. */
    method Connect(ws: ConnId, roomId: int)
      modifies this
      ensures activeConnections == Connected(old(activeConnections), ws, roomId)
    {
      if roomId !in activeConnections {
        activeConnections := activeConnections[roomId := {}];
      }
      activeConnections := activeConnections[roomId := activeConnections[roomId] + {ws}];
    }

    /** `disconnect`: discard the socket, and drop the room once it is empty. */
    method Disconnect(ws: ConnId, roomId: int)
      modifies this
      ensures activeConnections == Disconnected(old(activeConnections), ws, roomId)
    {
      if roomId in activeConnections {
        activeConnections := activeConnections[roomId := activeConnections[roomId] - {ws}];
        if activeConnections[roomId] == {} {
          activeConnections := activeConnections - {roomId};
        }
      }
    }

    /**
     * `broadcast_to_room`: send to every socket of a snapshot of the room's
     * set, one at a time, and discard from the live set each socket whose send
     * raises.  `attempts` is the order in which sends were tried,
     * `delivered` those that succeeded.
     */
    method BroadcastToRoom(roomId: int, failing: set<ConnId>)
      returns (attempts: seq<ConnId>, delivered: set<ConnId>)
      modifies this
      ensures activeConnections == Broadcasted(old(activeConnections), roomId, failing)
      ensures NoDuplicates(attempts)
      ensures Elements(attempts) == RoomOf(old(activeConnections), roomId)
      ensures delivered == RoomOf(old(activeConnections), roomId) - failing
    {
      attempts, delivered := [], {};
      if roomId in activeConnections {
        var snapshot := activeConnections[roomId];
        var remaining := snapshot;
        while remaining != {}
          invariant remaining <= snapshot
          invariant snapshot == old(activeConnections)[roomId]
          invariant roomId in activeConnections
          invariant activeConnections[roomId] == snapshot - (failing * (snapshot - remaining))
          invariant activeConnections == old(activeConnections)[roomId := activeConnections[roomId]]
          invariant Elements(attempts) == snapshot - remaining
          invariant NoDuplicates(attempts)
          invariant delivered == (snapshot - remaining) - failing
          decreases remaining
        {
          var c :| c in remaining;
          ElementsAppend(attempts, c);
          attempts := attempts + [c];
          if c in failing {
            activeConnections := activeConnections[roomId := activeConnections[roomId] - {c}];
          } else {
            delivered := delivered + {c};
          }
          remaining := remaining - {c};
        }
        assert snapshot - remaining == snapshot;
        assert snapshot - (failing * snapshot) == snapshot - failing;
        assert activeConnections[roomId] == snapshot - failing;
      }
    }

    /** `get_online_users`: how many sockets the room holds now. */
    function OnlineUsers(roomId: int): (n: nat)
      reads this
      ensures n == OnlineCount(activeConnections, roomId)
    {
      |RoomOf(activeConnections, roomId)|
    }
  }

  // ---------------------------------------------------------------------
  // Properties of the registry operations

  /** Connecting puts the socket in the room and leaves every other room alone. */
  lemma ConnectAdds(m: Rooms, ws: ConnId, r: int)
    ensures ws in Connected(m, ws, r)[r]
    ensures RoomOf(m, r) <= Connected(m, ws, r)[r]
    ensures forall q :: q != r ==> RoomOf(Connected(m, ws, r), q) == RoomOf(m, q)
  {
  }

  /** Disconnecting from a room with no entry changes nothing, and a second disconnect changes nothing more. */
  lemma DisconnectIdempotent(m: Rooms, ws: ConnId, r: int)
    ensures r !in m ==> Disconnected(m, ws, r) == m
    ensures Disconnected(Disconnected(m, ws, r), ws, r) == Disconnected(m, ws, r)
  {
    var once := Disconnected(m, ws, r);
    if r in once {
      assert once[r] - {ws} == once[r];
      assert once[r] != {};
      assert once[r := once[r]] == once;
    }
  }

  /** Neither connect nor disconnect ever leaves a room mapped to an empty set. */
  lemma ConnectDisconnectKeepNoEmptyRooms(m: Rooms, ws: ConnId, r: int)
    requires NoEmptyRooms(m)
    ensures NoEmptyRooms(Connected(m, ws, r))
    ensures NoEmptyRooms(Disconnected(m, ws, r))
  {
    assert ws in Connected(m, ws, r)[r];
  }

  /** Disconnect undoes a connect of a socket the room did not hold. */
  lemma DisconnectUndoesConnect(m: Rooms, ws: ConnId, r: int)
    requires NoEmptyRooms(m) && ws !in RoomOf(m, r)
    ensures Disconnected(Connected(m, ws, r), ws, r) == m
  {
    var c := Connected(m, ws, r);
    assert c[r] - {ws} == RoomOf(m, r);
    if r in m {
      assert m[r] != {};
      assert Disconnected(c, ws, r) == c[r := m[r]];
      assert c[r := m[r]] == m;
    } else {
      assert Disconnected(c, ws, r) == c - {r};
      assert c - {r} == m;
    }
  }

  /**
   * Unlike disconnect, a broadcast in which every send fails leaves the room
   * key behind, mapped to an empty set; the registry then has an empty room.
   */
  lemma BroadcastCanLeaveEmptyRoom(m: Rooms, r: int, failing: set<ConnId>)
    requires r in m && m[r] <= failing
    ensures r in Broadcasted(m, r, failing) && Broadcasted(m, r, failing)[r] == {}
    ensures !NoEmptyRooms(Broadcasted(m, r, failing))
  {
  }

  /** The online count moves by exactly the sockets each operation adds or removes. */
  lemma OnlineCountFollowsOperations(m: Rooms, ws: ConnId, r: int, failing: set<ConnId>)
    ensures OnlineCount(Connected(m, ws, r), r) == OnlineCount(m, r) + (if ws in RoomOf(m, r) then 0 else 1)
    ensures OnlineCount(Disconnected(m, ws, r), r) == OnlineCount(m, r) - (if ws in RoomOf(m, r) then 1 else 0)
    ensures OnlineCount(Broadcasted(m, r, failing), r) == OnlineCount(m, r) - |RoomOf(m, r) * failing|
  {
    var s := RoomOf(m, r);
    if ws !in s {
      assert |s + {ws}| == |s| + 1;
      assert s - {ws} == s;
    } else {
      assert s + {ws} == s;
      assert |s - {ws}| == |s| - 1;
    }
    assert s - failing == s - (s * failing);
    assert |s - (s * failing)| == |s| - |s * failing| by { CardDiffSubset(s, s * failing); }
  }

  lemma CardDiffSubset<T>(a: set<T>, b: set<T>)
    requires b <= a
    ensures |a - b| == |a| - |b|
  {
    assert a == (a - b) + b;
    assert (a - b) !! b;
  }

  // ---------------------------------------------------------------------
  // The endpoint: persist, then broadcast

  /**
   * A row of the `chat_message` table as `save_message_to_db` inserts it:
   * the columns are bound from its parameters in the order
   * (content, sender_id, chat_room_id, timestamp).
   */
  datatype ChatMessageRow = ChatMessageRow(content: Json, senderId: Json, chatRoomId: Json, timestamp: int)

  datatype Sender = Sender(id: Json, username: string)

  /** The dictionary `save_message_to_db` returns. */
  datatype SavedMessage = SavedMessage(id: nat, content: Json, sender: Sender, timestamp: int)

  /** The `{'type': 'message', 'data': saved}` payload sent to the room. */
  datatype Broadcast = Broadcast(data: SavedMessage)

  /** The SQLite file the endpoint writes to, as the columns it uses. */
  class SqliteStore {
    var chatMessages: seq<ChatMessageRow>
    /** `auth_user.username` by user id. */
    var usernames: map<int, string>

    constructor (chatMessages: seq<ChatMessageRow>, usernames: map<int, string>)
      ensures this.chatMessages == chatMessages && this.usernames == usernames
    {
      this.chatMessages := chatMessages;
      this.usernames := usernames;
    }
  }

  /** The username of a sender id, `"Unknown"` when no user row matches. */
  function SenderName(usernames: map<int, string>, senderId: Json): string {
    if senderId.JInt? && senderId.i in usernames then usernames[senderId.i] else "Unknown"
  }

  /**
   * `save_message_to_db(content, room_id, sender_id)`: insert a row, then
   * answer with its row id (the next auto-increment key) and the sender.
   */
  method SaveMessageToDb(store: SqliteStore, content: Json, roomId: Json, senderId: Json, now: int)
    returns (saved: SavedMessage)
    modifies store`chatMessages
    ensures store.chatMessages == old(store.chatMessages) + [ChatMessageRow(content, senderId, roomId, now)]
    ensures saved == SavedMessage(|old(store.chatMessages)| + 1, content,
                                  Sender(senderId, SenderName(store.usernames, senderId)), now)
  {
    store.chatMessages := store.chatMessages + [ChatMessageRow(content, senderId, roomId, now)];
    saved := SavedMessage(|store.chatMessages|, content, Sender(senderId, SenderName(store.usernames, senderId)), now);
  }

  /** How one pass of the endpoint's receive loop ends. */
  datatype LoopStep =
    | Sent(payload: Broadcast, attempts: seq<ConnId>, delivered: set<ConnId>)
    | Raised   // `json.loads` or a missing key raised: not `WebSocketDisconnect`, so the handler ends

  /** The arguments the loop passes to `save_message_to_db`, or `None` when reading the frame raises. */
  function SaveArguments(frame: Inbound, pathRoomId: int): (r: Option<(Json, Json, Json)>)
    ensures r.Some? <==> frame.Obj? && "content" in frame.fields && "sender_id" in frame.fields
    // The frame's sender id lands in the `room_id` parameter and the path's room id in `sender_id`.
    ensures r.Some? ==> r.value == (frame.fields["content"], frame.fields["sender_id"], JInt(pathRoomId))
  {
    if frame.Obj? && "content" in frame.fields && "sender_id" in frame.fields then
      Some((frame.fields["content"], frame.fields["sender_id"], JInt(pathRoomId)))
    else None
  }

  /**
   * One pass of `websocket_endpoint`'s loop for the socket on `/ws/{roomId}`:
   * decode the frame, persist it, then broadcast the saved message to the
   * path's room.  When decoding raises nothing is persisted or sent and the
   * socket is NOT removed from the manager, because only
   * `WebSocketDisconnect` reaches `manager.disconnect`.
   */
  method EndpointReceive(manager: ConnectionManager, store: SqliteStore, roomId: int, frame: Inbound,
                         now: int, failing: set<ConnId>) returns (step: LoopStep)
    modifies manager, store`chatMessages
    ensures SaveArguments(frame, roomId).None? ==>
      step.Raised? && manager.activeConnections == old(manager.activeConnections) &&
      store.chatMessages == old(store.chatMessages)
    ensures SaveArguments(frame, roomId).Some? ==>
      var (content, roomArg, senderArg) := SaveArguments(frame, roomId).value;
      && step.Sent?
      && store.chatMessages == old(store.chatMessages) + [ChatMessageRow(content, senderArg, roomArg, now)]
      && step.payload == Broadcast(SavedMessage(|old(store.chatMessages)| + 1, content,
                                                Sender(senderArg, SenderName(store.usernames, senderArg)), now))
      && manager.activeConnections == Broadcasted(old(manager.activeConnections), roomId, failing)
      && Elements(step.attempts) == RoomOf(old(manager.activeConnections), roomId)
      && step.delivered == RoomOf(old(manager.activeConnections), roomId) - failing
  {
    var args := SaveArguments(frame, roomId);
    if args.None? {
      return Raised;
    }
    var (content, roomArg, senderArg) := args.value;
    var saved := SaveMessageToDb(store, content, roomArg, senderArg, now);
    var attempts, delivered := manager.BroadcastToRoom(roomId, failing);
    step := Sent(Broadcast(saved), attempts, delivered);
  }

  /**
   * The stored row is filed under the frame's `sender_id` as its chat room and
   * under the path's room id as its sender, and the broadcast names the room
   * id as the sender.
   */
  lemma EndpointSwapsRoomAndSender(frame: Inbound, pathRoomId: int, usernames: map<int, string>, id: nat, now: int)
    requires frame.Obj? && "content" in frame.fields && "sender_id" in frame.fields
    ensures var (content, roomArg, senderArg) := SaveArguments(frame, pathRoomId).value;
      var row := ChatMessageRow(content, senderArg, roomArg, now);
      row.chatRoomId == frame.fields["sender_id"] && row.senderId == JInt(pathRoomId) &&
      SavedMessage(id, content, Sender(senderArg, SenderName(usernames, senderArg)), now).sender.id == JInt(pathRoomId)
  {
  }
}
