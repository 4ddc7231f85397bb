/**
 * The Django Channels side of the chat server: one `ChatConsumer` per open
 * socket, and the channel layer's groups (`chat_<room id>` to the set of
 * channel names subscribed to it).  A `group_send` runs the named handler in
 * every consumer of the group; the model returns, per recipient channel, the
 * frame that recipient's handler sends to its client.
 */
module Consumer {
  import opened Common
  import opened Text
  import opened Json
  import opened Store

  type ChannelName = string
  type Groups = map<string, set<ChannelName>>

  /** The authenticated user behind a consumer (`self.user`). */
  datatype Account = Account(id: UserId, username: string)

  /** The dictionary `save_message` returns, which `new_message` events carry. */
  datatype SavedMessage = SavedMessage(
    id: nat,
    chatRoomId: Json,
    content: string,
    senderId: Option<UserId>,
    senderName: Json,
    anonymousName: Json,
    timestamp: int)

  /** The payloads passed to `group_send`; the constructor names the handler that runs. */
  datatype Event =
    | UserJoinedEvent(userName: string, chatRoomId: Json)
    | NewMessageEvent(message: SavedMessage)
    | UserTypingEvent(userName: string, isTyping: Json, chatRoomId: Json, senderChannel: ChannelName)

  /** Why `receive` answered with an `error` frame. */
  datatype ErrorCause =
    | InvalidJson        // `json.loads` raised
    | NotADict           // the frame is JSON but `data.get` is not defined on it
    | ContentNotText     // `.strip()` on a non-string `content`
    | InvalidRoomKey     // `ChatRoom.objects.get(id=...)` raised in `get_room_info`
    | InvalidGroupName   // the channel layer refused the group name with `TypeError`
    | NoDeleteHandler    // `delete_chat_message` does not exist

  /** The frames a consumer sends to its own client. */
  datatype OutFrame =
    | ConnectionEstablished
    | NewMessageFrame(chatRoomId: Json, content: string, senderId: Option<UserId>, senderName: Json,
                      anonymousName: Json, timestamp: int)
    | UserTypingFrame(userName: string, isTyping: Json, chatRoomId: Json)
    | UserJoinedFrame(userName: string, chatRoomId: Json)
    | ErrorFrame(cause: ErrorCause)

  // ---------------------------------------------------------------------
  // Connecting: the token in the query string

  /** `qs.split('token=')[-1] if 'token=' in qs else None`. */
  function TokenFromQuery(qs: string): Option<string> {
    if Contains(qs, "token=") then Some(Last(Split(qs, "token="))) else None
  }

  /** The token is exactly what follows the last `token=`, and there is none without a `token=`. */
  lemma TokenFollowsLastMarker(qs: string)
    ensures TokenFromQuery(qs).None? <==> !Contains(qs, "token=")
    ensures TokenFromQuery(qs).Some? ==> FollowsLastSeparator(qs, "token=", TokenFromQuery(qs).value)
  {
    if Contains(qs, "token=") {
      LastPieceFollowsLastSeparator(qs, "token=");
    }
  }

  /** `get_user_from_token`: no token, or one that does not resolve, means no user. */
  function AccountOf(tokens: map<string, UserId>, users: seq<User>, token: Option<string>): (a: Option<Account>)
    ensures a.Some? <==> UserFromToken(tokens, users, token).Some?
    ensures a.Some? ==> a.value.id == UserFromToken(tokens, users, token).value &&
                        a.value.username == RowAt(users, a.value.id).username
  {
    match UserFromToken(tokens, users, token)
    case None => None
    case Some(id) => Some(Account(id, RowAt(users, id).username))
  }

  // ---------------------------------------------------------------------
  // Dispatch on the frame type

  datatype Action =
    | Ignore
    | Fail(cause: ErrorCause)
    | Join(data: Object)
    | Send(data: Object)
    | Typing(data: Object)

  /** The branch `receive` takes for a decoded frame. */
  function Dispatch(frame: Inbound): (a: Action)
    ensures frame.Unparsable? ==> a == Fail(InvalidJson)
    ensures frame.NotAnObject? ==> a == Fail(NotADict)
    ensures frame.Obj? ==>
      var t := Get(frame.fields, "type");
      (t == Some(JStr("join_room")) <==> a == Join(frame.fields)) &&
      (t == Some(JStr("send_message")) <==> a == Send(frame.fields)) &&
      (t == Some(JStr("typing")) <==> a == Typing(frame.fields)) &&
      (t == Some(JStr("delete_message")) <==> a == Fail(NoDeleteHandler)) &&
      (a == Ignore <==> t !in {Some(JStr("join_room")), Some(JStr("send_message")),
                               Some(JStr("typing")), Some(JStr("delete_message"))})
  {
    match frame
    case Unparsable => Fail(InvalidJson)
    case NotAnObject => Fail(NotADict)
    case Obj(data) =>
      var t := Get(data, "type");
      if t == Some(JStr("join_room")) then Join(data)
      else if t == Some(JStr("send_message")) then Send(data)
      else if t == Some(JStr("typing")) then Typing(data)
      else if t == Some(JStr("delete_message")) then Fail(NoDeleteHandler)
      else Ignore
  }

  /** `data.get('chat_room_id')` when it is truthy; `None` makes every handler return at once. */
  function RoomIdField(data: Object): (r: Option<Json>)
    ensures r.Some? <==> "chat_room_id" in data && Truthy(data["chat_room_id"])
    ensures r.Some? ==> r.value == data["chat_room_id"]
  {
    if "chat_room_id" in data && Truthy(data["chat_room_id"]) then Some(data["chat_room_id"]) else None
  }

  /** `f'chat_{room_id}'`. */
  function GroupName(roomId: Json): string {
    "chat_" + PyStr(roomId)
  }

  /** A character the channel layer allows in a group name: ASCII letters and digits, `-`, `_` and `.`. */
  predicate GroupNameChar(c: char) {
    ('a' <= c <= 'z') || ('A' <= c <= 'Z') || ('0' <= c <= '9') || c == '-' || c == '_' || c == '.'
  }

  const MaxNameLength: nat := 100

  /**
   * The channel layer's check on a group name, made by `group_add`,
   * `group_discard` and `group_send` alike: fewer than 100 characters, all of
   * them allowed ones, except that the pattern's `$` also lets one final
   * newline through.
   */
  predicate ValidGroupName(g: string) {
    && |g| < MaxNameLength
    && |PatternPart(g)| > 0
    && forall i :: 0 <= i < |PatternPart(g)| ==> GroupNameChar(PatternPart(g)[i])
  }

  /** The part of a name the pattern's character class must cover: all of it but one final newline. */
  function PatternPart(g: string): (p: string)
    ensures |p| <= |g| && p == g[..|p|]
    ensures |p| < |g| <==> |g| > 0 && g[|g| - 1] == '\n'
  {
    if |g| > 0 && g[|g| - 1] == '\n' then g[..|g| - 1] else g
  }

  /** Every integer room id names a group the layer accepts, as long as it prints in fewer than 95 characters. */
  lemma IntegerGroupNameValid(i: int)
    requires |IntToString(i)| < MaxNameLength - 5
    ensures ValidGroupName(GroupName(JInt(i)))
  {
    var g := GroupName(JInt(i));
    IntToStringChars(i);
    assert forall k :: 5 <= k < |g| ==> g[k] == IntToString(i)[k - 5];
    assert g[..5] == "chat_";
    assert forall k :: 0 <= k < |g| ==> GroupNameChar(g[k]) by {
      forall k | 0 <= k < |g| ensures GroupNameChar(g[k]) {
        if k < 5 { assert g[k] == "chat_"[k]; }
      }
    }
    assert g[|g| - 1] != '\n';
    assert PatternPart(g) == g;
  }

  /** A room id whose text holds a space names a group the layer refuses, so every handler using it raises. */
  lemma SpacedRoomIdRefused(s: string, i: nat)
    requires i < |s| && s[i] == ' '
    ensures !ValidGroupName(GroupName(JStr(s)))
  {
    var g := GroupName(JStr(s));
    assert g[5 + i] == ' ';
    var body := PatternPart(g);
    assert 5 + i < |body| && body[5 + i] == ' ';
  }

  /** Two integer room ids share a group only when they are equal. */
  lemma GroupNameInjective(a: int, b: int)
    requires GroupName(JInt(a)) == GroupName(JInt(b))
    ensures a == b
  {
    assert GroupName(JInt(a))[5..] == IntToString(a);
    assert GroupName(JInt(b))[5..] == IntToString(b);
    IntToStringInjective(a, b);
  }

  // ---------------------------------------------------------------------
  // The channel layer

  function Members(groups: Groups, g: string): set<ChannelName> {
    if g in groups then groups[g] else {}
  }

  /** Every group that holds channel `c` is one of `gs`. */
  ghost predicate TrackedBy(groups: Groups, c: ChannelName, gs: set<string>) {
    forall g :: g in groups && c in groups[g] ==> g in gs
  }

  /** `group_add(g, c)`. */
  function GroupAdded(groups: Groups, g: string, c: ChannelName): (r: Groups)
    ensures g in r && r[g] == Members(groups, g) + {c}
    ensures forall h :: h != g ==> Members(r, h) == Members(groups, h)
  {
    groups[g := Members(groups, g) + {c}]
  }

  /** `group_discard(g, c)`: a group left empty is dropped. */
  function GroupDiscarded(groups: Groups, g: string, c: ChannelName): (r: Groups)
    ensures Members(r, g) == Members(groups, g) - {c}
    ensures forall h :: h != g ==> Members(r, h) == Members(groups, h)
    ensures r.Keys <= groups.Keys
  {
    if g !in groups then groups
    else if groups[g] - {c} == {} then groups - {g}
    else groups[g := groups[g] - {c}]
  }

  /** The groups after discarding channel `c` from each group in `gs`. */
  function DiscardedFromAll(groups: Groups, gs: set<string>, c: ChannelName): (r: Groups)
    ensures forall h :: h in gs ==> Members(r, h) == Members(groups, h) - {c}
    ensures forall h :: h !in gs ==> Members(r, h) == Members(groups, h)
  {
    map g | g in groups && (g !in gs || groups[g] - {c} != {}) ::
      if g in gs then groups[g] - {c} else groups[g]
  }

  lemma DiscardStep(groups: Groups, done: set<string>, g: string, c: ChannelName)
    requires g !in done
    ensures GroupDiscarded(DiscardedFromAll(groups, done, c), g, c) == DiscardedFromAll(groups, done + {g}, c)
  {
    var a := GroupDiscarded(DiscardedFromAll(groups, done, c), g, c);
    var b := DiscardedFromAll(groups, done + {g}, c);
    forall h ensures (h in a <==> h in b) && (h in a ==> a[h] == b[h]) {
      assert Members(a, h) == Members(b, h);
    }
  }

  /**
   * What the consumer with channel `me` sends its client when an event
   * reaches it: `user_joined` and `new_message` always forward the event's
   * fields; `user_typing` forwards them to every channel but the sender's.
   */
  function HandlerFrame(event: Event, me: ChannelName): (r: Option<OutFrame>)
    ensures event.UserJoinedEvent? ==> r == Some(UserJoinedFrame(event.userName, event.chatRoomId))
    ensures event.NewMessageEvent? ==>
      var m := event.message;
      r == Some(NewMessageFrame(m.chatRoomId, m.content, m.senderId, m.senderName, m.anonymousName, m.timestamp))
    ensures event.UserTypingEvent? ==>
      (r.None? <==> event.senderChannel == me) &&
      (r.Some? ==> r.value == UserTypingFrame(event.userName, event.isTyping, event.chatRoomId))
  {
    match event
    case UserJoinedEvent(name, roomId) => Some(UserJoinedFrame(name, roomId))
    case NewMessageEvent(m) =>
      Some(NewMessageFrame(m.chatRoomId, m.content, m.senderId, m.senderName, m.anonymousName, m.timestamp))
    case UserTypingEvent(name, typing, roomId, sender) =>
      if sender != me then Some(UserTypingFrame(name, typing, roomId)) else None
  }

  /** `group_send(g, event)`: the frame each member's handler sends. */
  function Fanout(groups: Groups, g: string, event: Event): (d: map<ChannelName, OutFrame>)
    ensures d.Keys <= Members(groups, g)
    ensures forall c :: c in Members(groups, g) && HandlerFrame(event, c).Some? ==> c in d
    ensures forall c :: c in d ==> Some(d[c]) == HandlerFrame(event, c)
  {
    map c | c in Members(groups, g) && HandlerFrame(event, c).Some? :: HandlerFrame(event, c).value
  }

  /** A typing event reaches every member but the channel that sent it. */
  lemma TypingSkipsItsSender(groups: Groups, g: string, name: string, typing: Json, roomId: Json, me: ChannelName)
    ensures Fanout(groups, g, UserTypingEvent(name, typing, roomId, me)).Keys == Members(groups, g) - {me}
  {
    var d := Fanout(groups, g, UserTypingEvent(name, typing, roomId, me));
    forall c | c in Members(groups, g) - {me} ensures c in d {
      assert HandlerFrame(UserTypingEvent(name, typing, roomId, me), c).Some?;
    }
  }

  /** A new message reaches every member, its sender included, with the saved message's fields. */
  lemma NewMessageReachesEveryMember(groups: Groups, g: string, m: SavedMessage)
    ensures Fanout(groups, g, NewMessageEvent(m)).Keys == Members(groups, g)
    ensures forall c :: c in Members(groups, g) ==>
      Fanout(groups, g, NewMessageEvent(m))[c] ==
        NewMessageFrame(m.chatRoomId, m.content, m.senderId, m.senderName, m.anonymousName, m.timestamp)
  {
    var d := Fanout(groups, g, NewMessageEvent(m));
    forall c | c in Members(groups, g) ensures c in d {
      assert HandlerFrame(NewMessageEvent(m), c).Some?;
    }
  }

  /** A join announcement reaches every member, the joiner included, with the joiner's name and the room id. */
  lemma UserJoinedReachesEveryMember(groups: Groups, g: string, name: string, roomId: Json)
    ensures Fanout(groups, g, UserJoinedEvent(name, roomId)).Keys == Members(groups, g)
    ensures forall c :: c in Members(groups, g) ==>
      Fanout(groups, g, UserJoinedEvent(name, roomId))[c] == UserJoinedFrame(name, roomId)
  {
    var d := Fanout(groups, g, UserJoinedEvent(name, roomId));
    forall c | c in Members(groups, g) ensures c in d {
      assert HandlerFrame(UserJoinedEvent(name, roomId), c).Some?;
    }
  }

  /** Once a channel has joined a group, every new message sent to that group reaches it. */
  lemma JoinedChannelReceivesMessages(groups: Groups, g: string, c: ChannelName, m: SavedMessage)
    ensures c in Fanout(GroupAdded(groups, g, c), g, NewMessageEvent(m))
  {
    NewMessageReachesEveryMember(GroupAdded(groups, g, c), g, m);
  }

  /** Joining keeps every group holding the channel among its recorded groups. */
  lemma JoinKeepsTracking(groups: Groups, c: ChannelName, gs: set<string>, g: string)
    requires TrackedBy(groups, c, gs)
    ensures TrackedBy(GroupAdded(groups, g, c), c, gs + {g})
  {
    var r := GroupAdded(groups, g, c);
    forall h | h in r && c in r[h] ensures h in gs + {g} {
      if h != g { assert Members(r, h) == Members(groups, h); }
    }
  }

  /** After discarding from every recorded group, no group holds the channel any more. */
  lemma DisconnectLeavesNoSubscription(groups: Groups, c: ChannelName, gs: set<string>)
    requires TrackedBy(groups, c, gs)
    ensures forall g :: c !in Members(DiscardedFromAll(groups, gs, c), g)
  {
    forall g ensures c !in Members(DiscardedFromAll(groups, gs, c), g) {
    }
  }

  class ChannelLayer {
    var groups: Groups

    constructor (groups: Groups)
      ensures this.groups == groups
    {
      this.groups := groups;
    }

    /** `group_add(g, c)`: raises, changing nothing, for a name the layer refuses. */
    method GroupAdd(g: string, c: ChannelName) returns (raised: bool)
      modifies this
      ensures raised <==> !ValidGroupName(g)
      ensures raised ==> groups == old(groups)
      ensures !raised ==> groups == GroupAdded(old(groups), g, c)
    {
      if !ValidGroupName(g) {
        return true;
      }
      groups := groups[g := Members(groups, g) + {c}];
      return false;
    }

    /** `group_discard(g, c)`: raises, changing nothing, for a name the layer refuses. */
    method GroupDiscard(g: string, c: ChannelName) returns (raised: bool)
      modifies this
      ensures raised <==> !ValidGroupName(g)
      ensures raised ==> groups == old(groups)
      ensures !raised ==> groups == GroupDiscarded(old(groups), g, c)
    {
      if !ValidGroupName(g) {
        return true;
      }
      if g in groups {
        groups := groups[g := groups[g] - {c}];
        if groups[g] == {} {
          groups := groups - {g};
        }
      }
      return false;
    }

    /** `group_send(g, event)`: raises, delivering nothing, for a name the layer refuses. */
    method GroupSend(g: string, event: Event) returns (raised: bool, deliveries: map<ChannelName, OutFrame>)
      ensures raised <==> !ValidGroupName(g)
      ensures deliveries == if raised then map[] else Fanout(groups, g, event)
    {
      if !ValidGroupName(g) {
        return true, map[];
      }
      return false, Fanout(groups, g, event);
    }
  }

  // ---------------------------------------------------------------------
  // Persisting a message

  /** A message row to insert, with the dictionary `save_message` answers. */
  datatype Saved = Saved(row: Message, reply: SavedMessage)

  /** `anonymous_name or 'Anonymous'`: the value itself when truthy. */
  function AnonymousValue(anonymousName: Json): (r: Json)
    ensures Truthy(r)
    ensures Truthy(anonymousName) ==> r == anonymousName
    ensures !Truthy(anonymousName) ==> r == JStr("Anonymous")
  {
    if Truthy(anonymousName) then anonymousName else JStr("Anonymous")
  }

  /** The name a message is filed under in the anonymous branch: the text column holds `str` of that value. */
  function AnonymousLabel(anonymousName: Json): string {
    PyStr(AnonymousValue(anonymousName))
  }

  /**
   * `save_message`: in an anonymous room, or whenever an `anonymous_name` is
   * given, the message is filed under that name (or `'Anonymous'`); otherwise
   * only an authenticated participant of the room may post.  An unknown or
   * unreadable room id yields `None`, as every exception does.
   */
  function SaveMessage(rooms: seq<Room>, user: Option<Account>, roomId: Json, content: string,
                       anonymousName: Json, nextId: nat, now: int): (r: Option<Saved>)
    ensures r.Some? <==>
      LookupId(rooms, roomId).Found? &&
      var room := RowAt(rooms, LookupId(rooms, roomId).id);
      (room.roomType == Anonymous || Truthy(anonymousName) ||
       (user.Some? && user.value.id in room.participants))
    ensures r.Some? ==>
      var room := RowAt(rooms, LookupId(rooms, roomId).id);
      && r.value.row.chatRoom == LookupId(rooms, roomId).id
      && r.value.row.content == content
      && r.value.row.sender == (if user.Some? then Some(user.value.id) else None)
      && r.value.row.timestamp == now
      && r.value.reply.id == nextId && r.value.reply.chatRoomId == roomId
      && r.value.reply.content == content && r.value.reply.senderId == r.value.row.sender
      && r.value.row.anonymousName == PyStr(r.value.reply.anonymousName)
      && (room.roomType == Anonymous || Truthy(anonymousName) ==>
            r.value.reply.anonymousName == AnonymousValue(anonymousName) &&
            r.value.row.anonymousName == AnonymousLabel(anonymousName))
      && (room.roomType != Anonymous && !Truthy(anonymousName) ==> r.value.reply.anonymousName == JStr(""))
      && r.value.reply.senderName ==
           (if user.Some? then JStr(user.value.username) else AnonymousValue(anonymousName))
  {
    match LookupId(rooms, roomId)
    case Found(k) =>
      var room := RowAt(rooms, k);
      if room.roomType == Anonymous || Truthy(anonymousName) then
        var filedAs := AnonymousValue(anonymousName);
        var sender := if user.Some? then Some(user.value.id) else None;
        var senderName := if user.Some? then JStr(user.value.username) else filedAs;
        Some(Saved(Message(k, content, sender, PyStr(filedAs), now),
                   SavedMessage(nextId, roomId, content, sender, senderName, filedAs, now)))
      else if user.None? then None
      else if user.value.id !in room.participants then None
      else
        // The model's default for a message filed without an anonymous name.
        Some(Saved(Message(k, content, Some(user.value.id), "", now),
                   SavedMessage(nextId, roomId, content, Some(user.value.id), JStr(user.value.username), JStr(""), now)))
    case _ => None
  }

  /** `user_joined` is announced only for an existing room whose type is not anonymous. */
  predicate AnnouncesJoin(rooms: seq<Room>, roomId: Json) {
    LookupId(rooms, roomId).Found? && RowAt(rooms, LookupId(rooms, roomId).id).roomType != Anonymous
  }

  /** The name joins and typing are announced under. */
  function DisplayName(user: Option<Account>, fallback: string): string {
    if user.Some? then user.value.username else fallback
  }

  /** The `content` field as `send_chat_message` reads it: stripped text, or `None` when `.strip()` raises. */
  function ContentField(data: Object): (r: Option<string>)
    ensures r.Some? <==> GetOr(data, "content", JStr("")).JStr?
    ensures r.Some? ==> r.value == Strip(GetOr(data, "content", JStr("")).s)
  {
    var v := GetOr(data, "content", JStr(""));
    if v.JStr? then Some(Strip(v.s)) else None
  }

  /**
   * What `send_chat_message` saves for a frame whose content is text: nothing
   * without a room id or with blank content, else whatever `save_message` answers.
   */
  function SendOutcome(rooms: seq<Room>, user: Option<Account>, data: Object, nextId: nat, now: int): (r: Option<Saved>)
    requires ContentField(data).Some?
    ensures RoomIdField(data).None? || ContentField(data).value == [] ==> r.None?
    ensures r.Some? ==> r.value.row.content != [] && r.value.row.content == ContentField(data).value
    ensures RoomIdField(data).Some? && ContentField(data).value != [] ==>
      r == SaveMessage(rooms, user, RoomIdField(data).value, ContentField(data).value,
                       GetOr(data, "anonymous_name", JStr("")), nextId, now)
  {
    var roomId := RoomIdField(data);
    var content := ContentField(data).value;
    if roomId.None? || content == [] then None
    else SaveMessage(rooms, user, roomId.value, content, GetOr(data, "anonymous_name", JStr("")), nextId, now)
  }

  /** The `error` frame `receive` sends for an exception, if one was raised. */
  function ErrorFrames(raised: Option<ErrorCause>): (fs: seq<OutFrame>)
    ensures raised.None? <==> fs == []
    ensures raised.Some? ==> fs == [ErrorFrame(raised.value)]
  {
    if raised.Some? then [ErrorFrame(raised.value)] else []
  }

  class ChatConsumer {
    const channelName: ChannelName
    var token: Option<string>
    var user: Option<Account>
    var roomGroups: set<string>
    /** Every frame this consumer has sent to its own client, oldest first. */
    var outbox: seq<OutFrame>

    /** Every group of the layer holding this consumer's channel is one it recorded. */
    ghost predicate Tracked(layer: ChannelLayer)
      reads this, layer
    {
      TrackedBy(layer.groups, channelName, roomGroups)
    }

    /** Only names the layer accepted are recorded, since `room_groups.add` follows a `group_add` that returned. */
    predicate GroupsValid()
      reads this
    {
      forall g :: g in roomGroups ==> ValidGroupName(g)
    }

    /** `connect`: read the token, resolve the user, accept, and greet the client. */
    constructor Connect(channelName: ChannelName, queryString: string, tokens: map<string, UserId>, users: seq<User>)
      ensures this.channelName == channelName
      ensures token == TokenFromQuery(queryString)
      ensures user == AccountOf(tokens, users, token)
      ensures roomGroups == {} && outbox == [ConnectionEstablished]
      ensures GroupsValid()
    {
      this.channelName := channelName;
      token := TokenFromQuery(queryString);
      user := AccountOf(tokens, users, TokenFromQuery(queryString));
      roomGroups := {};
      outbox := [ConnectionEstablished];
    }

    /** `disconnect`: discard the channel from every group it joined; none of them is refused. */
    method Disconnect(layer: ChannelLayer)
      requires GroupsValid()
      modifies layer
      ensures layer.groups == DiscardedFromAll(old(layer.groups), roomGroups, channelName)
      ensures old(Tracked(layer)) ==> forall g :: channelName !in Members(layer.groups, g)
    {
      var remaining := roomGroups;
      while remaining != {}
        invariant remaining <= roomGroups
        invariant layer.groups == DiscardedFromAll(old(layer.groups), roomGroups - remaining, channelName)
        decreases remaining
      {
        var g :| g in remaining;
        DiscardStep(old(layer.groups), roomGroups - remaining, g, channelName);
        var _ := layer.GroupDiscard(g, channelName);
        assert (roomGroups - remaining) + {g} == roomGroups - (remaining - {g});
        remaining := remaining - {g};
      }
      if old(Tracked(layer)) {
        DisconnectLeavesNoSubscription(old(layer.groups), channelName, roomGroups);
      }
    }

    /** The handlers `new_message`, `user_typing` and `user_joined`, run when a group event arrives. */
    method OnEvent(event: Event)
      modifies this`outbox
      ensures outbox == old(outbox) + match HandlerFrame(event, channelName)
                                      case Some(f) => [f]
                                      case None => []
    {
      match HandlerFrame(event, channelName)
      case Some(f) => outbox := outbox + [f];
      case None =>
    }

    /**
     * `join_room`: subscribe to `chat_<id>` and record it, then announce the
     * join to the group (the joiner included) when the room exists and is not
     * anonymous.  A name the layer refuses raises before anything changes; a
     * room id the lookup cannot read raises after the subscription.
     */
    method JoinRoom(data: Object, layer: ChannelLayer, rooms: seq<Room>)
      returns (raised: Option<ErrorCause>, deliveries: map<ChannelName, OutFrame>)
      modifies this`roomGroups, layer
      ensures RoomIdField(data).None? ==>
        raised.None? && deliveries == map[] &&
        roomGroups == old(roomGroups) && layer.groups == old(layer.groups)
      ensures RoomIdField(data).Some? && !ValidGroupName(GroupName(RoomIdField(data).value)) ==>
        raised == Some(InvalidGroupName) && deliveries == map[] &&
        roomGroups == old(roomGroups) && layer.groups == old(layer.groups)
      ensures RoomIdField(data).Some? && ValidGroupName(GroupName(RoomIdField(data).value)) ==>
        var roomId := RoomIdField(data).value;
        var g := GroupName(roomId);
        && layer.groups == GroupAdded(old(layer.groups), g, channelName)
        && roomGroups == old(roomGroups) + {g}
        && (raised.Some? <==> LookupId(rooms, roomId).LookupRaises?)
        && (raised.Some? ==> raised.value == InvalidRoomKey)
        && deliveries == if AnnouncesJoin(rooms, roomId)
                         then Fanout(layer.groups, g, UserJoinedEvent(DisplayName(user, "Anonymous"), roomId))
                         else map[]
      ensures old(GroupsValid()) ==> GroupsValid()
    {
      raised, deliveries := None, map[];
      var roomId := RoomIdField(data);
      if roomId.None? {
        return;
      }
      var g := GroupName(roomId.value);
      var refused := layer.GroupAdd(g, channelName);
      if refused {
        raised := Some(InvalidGroupName);
        return;
      }
      roomGroups := roomGroups + {g};
      var info := LookupId(rooms, roomId.value);
      if info.LookupRaises? {
        raised := Some(InvalidRoomKey);
      } else if info.Found? && RowAt(rooms, info.id).roomType != Anonymous {
        var _, sent := layer.GroupSend(g, UserJoinedEvent(DisplayName(user, "Anonymous"), roomId.value));
        deliveries := sent;
      }
    }

    /**
     * `send_chat_message`: nothing is saved or sent without a room id or with
     * blank content; otherwise the message is saved and, only when saving
     * answered, sent to the room's group (the sender included).  A group name
     * the layer refuses raises after the message is saved.
     */
    method SendChatMessage(data: Object, layer: ChannelLayer, db: Database, now: int)
      returns (raised: Option<ErrorCause>, deliveries: map<ChannelName, OutFrame>)
      modifies db`messages
      ensures ContentField(data).None? ==>
        raised == Some(ContentNotText) && deliveries == map[] && db.messages == old(db.messages)
      ensures ContentField(data).Some? ==>
        var saved := SendOutcome(db.rooms, user, data, |old(db.messages)| + 1, now);
        && (saved.None? ==> raised.None? && deliveries == map[] && db.messages == old(db.messages))
        && (saved.Some? ==>
              var g := GroupName(RoomIdField(data).value);
              && db.messages == old(db.messages) + [saved.value.row]
              && (ValidGroupName(g) ==> raised.None? && deliveries == Fanout(layer.groups, g, NewMessageEvent(saved.value.reply)))
              && (!ValidGroupName(g) ==> raised == Some(InvalidGroupName) && deliveries == map[]))
    {
      raised, deliveries := None, map[];
      var roomId := RoomIdField(data);
      var content := ContentField(data);
      if content.None? {
        raised := Some(ContentNotText);
        return;
      }
      var anonymousName := GetOr(data, "anonymous_name", JStr(""));
      if roomId.None? || content.value == [] {
        return;
      }
      var saved := SaveMessage(db.rooms, user, roomId.value, content.value, anonymousName, |db.messages| + 1, now);
      if saved.None? {
        return;
      }
      db.messages := db.messages + [saved.value.row];
      var refused;
      refused, deliveries := layer.GroupSend(GroupName(roomId.value), NewMessageEvent(saved.value.reply));
      if refused {
        raised := Some(InvalidGroupName);
      }
    }

    /** `handle_typing`: announce typing to the room's group, tagged with this channel. */
    method HandleTyping(data: Object, layer: ChannelLayer)
      returns (raised: Option<ErrorCause>, deliveries: map<ChannelName, OutFrame>)
      ensures RoomIdField(data).None? ==> raised.None? && deliveries == map[]
      ensures RoomIdField(data).Some? && !ValidGroupName(GroupName(RoomIdField(data).value)) ==>
        raised == Some(InvalidGroupName) && deliveries == map[]
      ensures RoomIdField(data).Some? && ValidGroupName(GroupName(RoomIdField(data).value)) ==>
        var roomId := RoomIdField(data).value;
        raised.None? &&
        deliveries == Fanout(layer.groups, GroupName(roomId),
          UserTypingEvent(DisplayName(user, "Someone"), GetOr(data, "is_typing", JBool(false)), roomId, channelName))
      ensures channelName !in deliveries
    {
      raised, deliveries := None, map[];
      var roomId := RoomIdField(data);
      if roomId.None? {
        return;
      }
      var event := UserTypingEvent(DisplayName(user, "Someone"), GetOr(data, "is_typing", JBool(false)),
                                   roomId.value, channelName);
      var refused;
      refused, deliveries := layer.GroupSend(GroupName(roomId.value), event);
      if refused {
        raised := Some(InvalidGroupName);
      }
    }

    /**
     * `receive`: dispatch on the frame type.  Every exception raised while
     * handling the frame turns into exactly one `error` frame to this client;
     * an unrecognised type is ignored.  The deliveries are the frames the
     * handler's `group_send` makes the group's consumers send.
     */
    method Receive(frame: Inbound, layer: ChannelLayer, db: Database, now: int)
      returns (deliveries: map<ChannelName, OutFrame>)
      modifies this`roomGroups, this`outbox, layer, db`messages
      ensures Dispatch(frame) == Ignore ==>
        outbox == old(outbox) && roomGroups == old(roomGroups) && layer.groups == old(layer.groups) &&
        db.messages == old(db.messages) && deliveries == map[]
      ensures Dispatch(frame).Fail? ==>
        outbox == old(outbox) + [ErrorFrame(Dispatch(frame).cause)] && roomGroups == old(roomGroups) &&
        layer.groups == old(layer.groups) && db.messages == old(db.messages) && deliveries == map[]
      ensures Dispatch(frame).Join? ==>
        db.messages == old(db.messages) &&
        var data := Dispatch(frame).data;
        (RoomIdField(data).None? ==>
           roomGroups == old(roomGroups) && layer.groups == old(layer.groups) && outbox == old(outbox) &&
           deliveries == map[]) &&
        (RoomIdField(data).Some? ==>
           var roomId := RoomIdField(data).value;
           var g := GroupName(roomId);
           (!ValidGroupName(g) ==>
              roomGroups == old(roomGroups) && layer.groups == old(layer.groups) &&
              outbox == old(outbox) + [ErrorFrame(InvalidGroupName)] && deliveries == map[]) &&
           (ValidGroupName(g) ==>
              roomGroups == old(roomGroups) + {g} &&
              layer.groups == GroupAdded(old(layer.groups), g, channelName) &&
              outbox == old(outbox) + (if LookupId(db.rooms, roomId).LookupRaises? then [ErrorFrame(InvalidRoomKey)] else []) &&
              deliveries == if AnnouncesJoin(db.rooms, roomId)
                            then Fanout(layer.groups, g, UserJoinedEvent(DisplayName(user, "Anonymous"), roomId))
                            else map[]))
      ensures Dispatch(frame).Send? ==>
        roomGroups == old(roomGroups) && layer.groups == old(layer.groups) &&
        var data := Dispatch(frame).data;
        (ContentField(data).None? ==>
           outbox == old(outbox) + [ErrorFrame(ContentNotText)] && db.messages == old(db.messages) &&
           deliveries == map[]) &&
        (ContentField(data).Some? ==>
           var saved := SendOutcome(db.rooms, user, data, |old(db.messages)| + 1, now);
           db.messages == old(db.messages) + (if saved.Some? then [saved.value.row] else []) &&
           (saved.None? ==> outbox == old(outbox) && deliveries == map[]) &&
           (saved.Some? ==>
              var g := GroupName(RoomIdField(data).value);
              (ValidGroupName(g) ==>
                 outbox == old(outbox) && deliveries == Fanout(layer.groups, g, NewMessageEvent(saved.value.reply))) &&
              (!ValidGroupName(g) ==> outbox == old(outbox) + [ErrorFrame(InvalidGroupName)] && deliveries == map[])))
      ensures Dispatch(frame).Typing? ==>
        roomGroups == old(roomGroups) && layer.groups == old(layer.groups) && db.messages == old(db.messages) &&
        channelName !in deliveries &&
        var data := Dispatch(frame).data;
        (RoomIdField(data).None? ==> outbox == old(outbox) && deliveries == map[]) &&
        (RoomIdField(data).Some? ==>
           var roomId := RoomIdField(data).value;
           var g := GroupName(roomId);
           (ValidGroupName(g) ==>
              outbox == old(outbox) &&
              deliveries == Fanout(layer.groups, g, UserTypingEvent(DisplayName(user, "Someone"),
                                     GetOr(data, "is_typing", JBool(false)), roomId, channelName))) &&
           (!ValidGroupName(g) ==> outbox == old(outbox) + [ErrorFrame(InvalidGroupName)] && deliveries == map[]))
      ensures old(Tracked(layer)) ==> Tracked(layer)
      ensures old(GroupsValid()) ==> GroupsValid()
    {
      deliveries := map[];
      var raised: Option<ErrorCause> := None;
      match Dispatch(frame) {
        case Ignore =>
        case Fail(cause) =>
          raised := Some(cause);
        case Join(data) =>
          ghost var before := layer.groups;
          raised, deliveries := JoinRoom(data, layer, db.rooms);
          if RoomIdField(data).Some? && ValidGroupName(GroupName(RoomIdField(data).value)) && old(Tracked(layer)) {
            JoinKeepsTracking(before, channelName, old(roomGroups), GroupName(RoomIdField(data).value));
          }
        case Send(data) =>
          raised, deliveries := SendChatMessage(data, layer, db, now);
        case Typing(data) =>
          raised, deliveries := HandleTyping(data, layer);
      }
      outbox := outbox + ErrorFrames(raised);
    }
  }
}
