/**
 * The browser-side `WebSocketService`: the guard and URL building of
 * `connect`, the socket's event handlers, the bounded reconnect schedule,
 * `disconnect`, and the three outgoing frame kinds.  The browser's part is
 * made explicit: the socket's `readyState` moves only through
 * `SocketStateChanged`, a scheduled timer fires through `TimerFires`, and
 * whether `new WebSocket(url)` throws is a parameter of `Connect`.
 */
module Client {
  import opened Common
  import opened Json

  // ---------------------------------------------------------------------
  // URL building

  const WsBase: string := "ws://localhost:8001/ws"

  /** Characters the `application/x-www-form-urlencoded` serializer leaves as they are. */
  predicate Unreserved(c: char) {
    ('a' <= c <= 'z') || ('A' <= c <= 'Z') || ('0' <= c <= '9') || c == '*' || c == '-' || c == '.' || c == '_'
  }

  /** The UTF-8 encoding of one scalar value. */
  function Utf8(c: char): (bytes: seq<nat>)
    ensures 1 <= |bytes| <= 4
    ensures forall k :: 0 <= k < |bytes| ==> bytes[k] < 256
    ensures (c as int) < 0x80 ==> bytes == [c as int]
  {
    var cp := c as int;
    if cp < 0x80 then [cp]
    else if cp < 0x800 then [0xC0 + cp / 0x40, 0x80 + cp % 0x40]
    else if cp < 0x10000 then [0xE0 + cp / 0x1000, 0x80 + (cp / 0x40) % 0x40, 0x80 + cp % 0x40]
    else [0xF0 + cp / 0x40000, 0x80 + (cp / 0x1000) % 0x40, 0x80 + (cp / 0x40) % 0x40, 0x80 + cp % 0x40]
  }

  function HexDigit(d: nat): (c: char)
    requires d < 16
    ensures ('0' <= c <= '9') || ('A' <= c <= 'F')
  {
    if d < 10 then ('0' as int + d) as char else ('A' as int + d - 10) as char
  }

  /** `%XX` for every byte, upper-case hexadecimal. */
  function PercentEncode(bytes: seq<nat>): (r: string)
    requires forall k :: 0 <= k < |bytes| ==> bytes[k] < 256
    ensures |r| == 3 * |bytes|
    ensures forall i :: 0 <= i < |r| ==> r[i] == '%' || ('0' <= r[i] <= '9') || ('A' <= r[i] <= 'F')
  {
    if bytes == [] then []
    else ['%', HexDigit(bytes[0] / 16), HexDigit(bytes[0] % 16)] + PercentEncode(bytes[1..])
  }

  /** How the serializer writes one character: itself, `+` for a space, or its percent-encoded UTF-8 bytes. */
  function EncodeChar(c: char): (r: string)
    ensures r != []
    ensures forall i :: 0 <= i < |r| ==> r[i] != '=' && r[i] != '&'
    ensures Unreserved(c) <==> r == [c]
  {
    if Unreserved(c) then [c]
    else if c == ' ' then "+"
    else PercentEncode(Utf8(c))
  }

  /** `application/x-www-form-urlencoded` serialization of a name or a value. */
  function FormEncode(s: string): (r: string)
    ensures |r| >= |s|
    ensures forall i :: 0 <= i < |r| ==> r[i] != '=' && r[i] != '&'
    ensures (forall i :: 0 <= i < |s| ==> Unreserved(s[i])) ==> r == s
  {
    if s == [] then [] else EncodeChar(s[0]) + FormEncode(s[1..])
  }

  /** The names and the flag value of the query parameters `connect` sets. */
  const TokenParam: string := "token"
  const AnonymousParam: string := "anonymous"
  const FlagValue: string := "true"

  /** The parameters `connect` appends: a token when one is given and the flag is off, else the flag. */
  function QueryParams(token: Option<string>, isAnonymous: bool): seq<(string, string)> {
    if token.Some? && token.value != [] && !isAnonymous then [(TokenParam, token.value)]
    else if isAnonymous then [(AnonymousParam, FlagValue)]
    else []
  }

  /** `URLSearchParams.toString()`: encoded `name=value` pairs joined by `&`. */
  function Serialize(params: seq<(string, string)>): string {
    if params == [] then []
    else
      var pair := FormEncode(params[0].0) + "=" + FormEncode(params[0].1);
      if |params| == 1 then pair else pair + "&" + Serialize(params[1..])
  }

  /** The URL `connect` opens. */
  function BuildUrl(token: Option<string>, isAnonymous: bool): (url: string)
    ensures token.Some? && token.value != [] && !isAnonymous ==>
      url == WsBase + "?" + (TokenParam + "=" + FormEncode(token.value))
    ensures isAnonymous ==> url == WsBase + "?" + (AnonymousParam + "=" + FlagValue)
    ensures !isAnonymous && (token.None? || token.value == []) ==> url == WsBase
  {
    var params := QueryParams(token, isAnonymous);
    var query := Serialize(params);
    if params != [] then
      SerializedQuery(token, isAnonymous);
      WsBase + "?" + query
    else WsBase
  }

  /** What `params.toString()` yields in each of the two non-empty cases. */
  lemma SerializedQuery(token: Option<string>, isAnonymous: bool)
    ensures token.Some? && token.value != [] && !isAnonymous ==>
      Serialize(QueryParams(token, isAnonymous)) == TokenParam + "=" + FormEncode(token.value)
    ensures isAnonymous ==> Serialize(QueryParams(token, isAnonymous)) == AnonymousParam + "=" + FlagValue
  {
    if token.Some? && token.value != [] && !isAnonymous {
      TokenQuery(token.value);
    } else if isAnonymous {
      AnonymousQuery();
    }
  }

  lemma TokenQuery(t: string)
    ensures Serialize([(TokenParam, t)]) == TokenParam + "=" + FormEncode(t)
  {
    PlainNameSerialized(TokenParam, t);
  }

  lemma AnonymousQuery()
    ensures Serialize([(AnonymousParam, FlagValue)]) == AnonymousParam + "=" + FlagValue
  {
    assert forall i :: 0 <= i < |AnonymousParam| ==> Unreserved(AnonymousParam[i]);
    assert forall i :: 0 <= i < |FlagValue| ==> Unreserved(FlagValue[i]);
    PlainPairSerialized(AnonymousParam, FlagValue);
  }

  lemma PlainPairSerialized(name: string, value: string)
    requires forall i :: 0 <= i < |name| ==> Unreserved(name[i])
    requires forall i :: 0 <= i < |value| ==> Unreserved(value[i])
    ensures Serialize([(name, value)]) == name + "=" + value
  {
    PlainNameSerialized(name, value);
    PlainUnencoded(value);
  }

  lemma PlainUnencoded(s: string)
    requires forall i :: 0 <= i < |s| ==> Unreserved(s[i])
    ensures FormEncode(s) == s
  {
  }

  lemma PlainNameSerialized(name: string, value: string)
    requires forall i :: 0 <= i < |name| ==> Unreserved(name[i])
    ensures Serialize([(name, value)]) == name + "=" + FormEncode(value)
  {
  }

  /** A JSON Web Token is base64url segments joined by dots, all of which the serializer keeps. */
  predicate JwtText(t: string) {
    forall i :: 0 <= i < |t| ==> ('a' <= t[i] <= 'z') || ('A' <= t[i] <= 'Z') || ('0' <= t[i] <= '9') ||
                                 t[i] == '-' || t[i] == '_' || t[i] == '.'
  }

  /** A token in JWT form reaches the URL unchanged. */
  lemma JwtTokenUnencoded(t: string)
    requires t != [] && JwtText(t)
    ensures BuildUrl(Some(t), false) == WsBase + "?" + (TokenParam + "=" + t)
  {
    assert forall i :: 0 <= i < |t| ==> Unreserved(t[i]);
  }

  // ---------------------------------------------------------------------
  // outgoing frames

  /** `...(anonymousName && { anonymous_name: anonymousName })`: present only when non-empty. */
  function WithAnonymousName(frame: Object, anonymousName: Option<string>): (r: Object)
    requires "anonymous_name" !in frame
    ensures "anonymous_name" in r <==> anonymousName.Some? && anonymousName.value != []
    ensures "anonymous_name" in r ==> r["anonymous_name"] == JStr(anonymousName.value)
    ensures forall k :: k in frame ==> k in r && r[k] == frame[k]
    ensures forall k :: k in r && k != "anonymous_name" ==> k in frame
  {
    if anonymousName.Some? && anonymousName.value != [] then frame["anonymous_name" := JStr(anonymousName.value)]
    else frame
  }

  function JoinFrame(roomId: int, anonymousName: Option<string>): (f: Object)
    ensures f.Keys <= {"type", "room_id", "anonymous_name"}
    ensures "type" in f && "room_id" in f && f["type"] == JStr("join_room") && f["room_id"] == JInt(roomId)
  {
    WithAnonymousName(map["type" := JStr("join_room"), "room_id" := JInt(roomId)], anonymousName)
  }

  function MessageFrame(roomId: int, content: string, anonymousName: Option<string>): (f: Object)
    ensures f.Keys <= {"type", "room_id", "content", "anonymous_name"}
    ensures "type" in f && "room_id" in f && "content" in f
    ensures f["type"] == JStr("send_message") && f["room_id"] == JInt(roomId) && f["content"] == JStr(content)
  {
    WithAnonymousName(map["type" := JStr("send_message"), "room_id" := JInt(roomId), "content" := JStr(content)],
                      anonymousName)
  }

  function TypingFrame(roomId: int, isTyping: bool, anonymousName: Option<string>): (f: Object)
    ensures f.Keys <= {"type", "room_id", "is_typing", "anonymous_name"}
    ensures "type" in f && "room_id" in f && "is_typing" in f
    ensures f["type"] == JStr("typing") && f["room_id"] == JInt(roomId) && f["is_typing"] == JBool(isTyping)
  {
    WithAnonymousName(map["type" := JStr("typing"), "room_id" := JInt(roomId), "is_typing" := JBool(isTyping)],
                      anonymousName)
  }

  // ---------------------------------------------------------------------
  // the service

  datatype ReadyState = Connecting | Open | Closing | Closed

  /** A `WebSocket` the service created, with the browser's current view of it. */
  datatype Socket = Socket(url: string, readyState: ReadyState)

  /** Which of the four callbacks are registered. */
  datatype Callbacks = Callbacks(onMessage: bool, onError: bool, onConnect: bool, onDisconnect: bool)

  const NoCallbacks := Callbacks(false, false, false, false)

  datatype CallbackKind = MessageCallback | ErrorCallback | ConnectCallback | DisconnectCallback

  /** A call the service made into one of its callbacks. */
  datatype Notice = Connected | Disconnected | ErrorRaised | MessageReceived(data: Inbound)

  const MaxReconnectAttempts: nat := 5
  const ReconnectInterval: nat := 3000

  class WebSocketService {
    var ws: Option<Socket>
    var reconnectAttempts: nat
    var callbacks: Callbacks
    var isConnecting: bool
    /** The handle of the latest scheduled reconnect, if not cleared. */
    var reconnectTimer: Option<nat>
    /** Timers scheduled and neither fired nor cleared. */
    var pendingTimers: set<nat>
    /** The next handle `setTimeout` returns; handles are positive, hence truthy. */
    var nextTimer: nat
    /** Frames handed to `ws.send`, oldest first. */
    var sent: seq<Object>
    /** `ws.close(code, reason)` calls, oldest first. */
    var closes: seq<(int, string)>
    /** Callback invocations, oldest first. */
    var notices: seq<Notice>

    /** Reconnect attempts never exceed the bound, and every timer handle was issued. */
    predicate Valid()
      reads this
    {
      && reconnectAttempts <= MaxReconnectAttempts
      && 0 < nextTimer
      && (reconnectTimer.Some? ==> 0 < reconnectTimer.value < nextTimer)
      && (forall t :: t in pendingTimers ==> 0 < t < nextTimer)
    }

    constructor ()
      ensures Valid()
      ensures ws.None? && reconnectAttempts == 0 && callbacks == NoCallbacks && !isConnecting
      ensures reconnectTimer.None? && pendingTimers == {}
      ensures sent == [] && closes == [] && notices == []
    {
      ws := None;
      reconnectAttempts := 0;
      callbacks := NoCallbacks;
      isConnecting := false;
      reconnectTimer := None;
      pendingTimers := {};
      nextTimer := 1;
      sent := [];
      closes := [];
      notices := [];
    }

    /** `isConnected()`: a socket exists and it is OPEN. */
    function IsConnected(): (b: bool)
      reads this
      ensures b <==> ws.Some? && ws.value.readyState == Open
    {
      match ws
      case Some(s) => s.readyState == Open
      case None => false
    }

    /** `handleError`: tell the error callback, when one is registered. */
    method HandleError()
      modifies this`notices
      ensures notices == old(notices) + (if callbacks.onError then [ErrorRaised] else [])
    {
      if callbacks.onError {
        notices := notices + [ErrorRaised];
      }
    }

    /**
     * `connect(token, isAnonymous)`: nothing while a connection is being set
     * up or the socket is OPEN; otherwise open a socket on `BuildUrl`, or,
     * when the constructor throws, clear `isConnecting` and report the error.
     */
    method Connect(token: Option<string>, isAnonymous: bool, creationFails: bool)
      modifies this`isConnecting, this`ws, this`notices
      ensures old(isConnecting || IsConnected()) ==>
        isConnecting == old(isConnecting) && ws == old(ws) && notices == old(notices)
      ensures !old(isConnecting || IsConnected()) && !creationFails ==>
        isConnecting && ws == Some(Socket(BuildUrl(token, isAnonymous), Connecting)) && notices == old(notices)
      ensures !old(isConnecting || IsConnected()) && creationFails ==>
        !isConnecting && ws == old(ws) && notices == old(notices) + (if callbacks.onError then [ErrorRaised] else [])
    {
      if isConnecting || IsConnected() {
        return;
      }
      isConnecting := true;
      var url := BuildUrl(token, isAnonymous);
      if creationFails {
        isConnecting := false;
        HandleError();
      } else {
        ws := Some(Socket(url, Connecting));
      }
    }

    /** The browser moves the current socket to a new ready state. */
    method SocketStateChanged(state: ReadyState)
      modifies this`ws
      ensures ws == (if old(ws).Some? then Some(old(ws).value.(readyState := state)) else None)
    {
      if ws.Some? {
        ws := Some(ws.value.(readyState := state));
      }
    }

    /** `onopen`: the connection is up; the attempt counter starts over. */
    method OnOpen()
      requires Valid()
      modifies this`isConnecting, this`reconnectAttempts, this`notices
      ensures Valid()
      ensures !isConnecting && reconnectAttempts == 0
      ensures notices == old(notices) + (if callbacks.onConnect then [Connected] else [])
    {
      isConnecting := false;
      reconnectAttempts := 0;
      if callbacks.onConnect {
        notices := notices + [Connected];
      }
    }

    /** `onmessage`: a frame that parses goes to the message callback; one that does not is dropped. */
    method OnMessage(data: Inbound)
      modifies this`notices
      ensures notices == old(notices) + (if !data.Unparsable? && callbacks.onMessage then [MessageReceived(data)] else [])
    {
      if !data.Unparsable? && callbacks.onMessage {
        notices := notices + [MessageReceived(data)];
      }
    }

    /** `scheduleReconnect`: count the attempt and set a timer that will call `connect()`. */
    method ScheduleReconnect()
      requires Valid() && reconnectAttempts < MaxReconnectAttempts
      modifies this`reconnectAttempts, this`reconnectTimer, this`pendingTimers, this`nextTimer
      ensures Valid()
      ensures reconnectAttempts == old(reconnectAttempts) + 1
      ensures reconnectTimer == Some(old(nextTimer)) && old(nextTimer) !in old(pendingTimers)
      ensures pendingTimers == old(pendingTimers) + {old(nextTimer)}
    {
      reconnectAttempts := reconnectAttempts + 1;
      reconnectTimer := Some(nextTimer);
      pendingTimers := pendingTimers + {nextTimer};
      nextTimer := nextTimer + 1;
    }

    /**
     * `onclose`: report the disconnection, and schedule a reconnect only for
     * an unclean close while fewer than five attempts have been made.
     */
    method OnClose(wasClean: bool)
      requires Valid()
      modifies this`isConnecting, this`notices, this`reconnectAttempts, this`reconnectTimer, this`pendingTimers,
               this`nextTimer
      ensures Valid()
      ensures !isConnecting
      ensures notices == old(notices) + (if callbacks.onDisconnect then [Disconnected] else [])
      ensures !wasClean && old(reconnectAttempts) < MaxReconnectAttempts ==>
        reconnectAttempts == old(reconnectAttempts) + 1 && reconnectTimer.Some? &&
        reconnectTimer.value !in old(pendingTimers) && pendingTimers == old(pendingTimers) + {reconnectTimer.value}
      ensures wasClean || old(reconnectAttempts) >= MaxReconnectAttempts ==>
        reconnectAttempts == old(reconnectAttempts) && reconnectTimer == old(reconnectTimer) &&
        pendingTimers == old(pendingTimers)
    {
      isConnecting := false;
      if callbacks.onDisconnect {
        notices := notices + [Disconnected];
      }
      if !wasClean && reconnectAttempts < MaxReconnectAttempts {
        ScheduleReconnect();
      }
    }

    /** `onerror`: clear `isConnecting` and report the error. */
    method OnError()
      modifies this`isConnecting, this`notices
      ensures !isConnecting
      ensures notices == old(notices) + (if callbacks.onError then [ErrorRaised] else [])
    {
      isConnecting := false;
      HandleError();
    }

    /** A scheduled reconnect fires: `connect()` with its default arguments. */
    method TimerFires(t: nat, creationFails: bool)
      requires t in pendingTimers
      modifies this`pendingTimers, this`isConnecting, this`ws, this`notices
      ensures pendingTimers == old(pendingTimers) - {t}
      ensures old(isConnecting || IsConnected()) ==>
        isConnecting == old(isConnecting) && ws == old(ws) && notices == old(notices)
      ensures !old(isConnecting || IsConnected()) && !creationFails ==>
        isConnecting && ws == Some(Socket(WsBase, Connecting)) && notices == old(notices)
      ensures !old(isConnecting || IsConnected()) && creationFails ==>
        !isConnecting && ws == old(ws) && notices == old(notices) + (if callbacks.onError then [ErrorRaised] else [])
    {
      pendingTimers := pendingTimers - {t};
      Connect(None, false, creationFails);
    }

    /**
     * `disconnect`: clear the latest timer, close the socket with code 1000
     * (normal closure, section 7.4.1 of RFC 6455), forget the socket and every
     * callback.
     */
    method Disconnect()
      requires Valid()
      modifies this`reconnectTimer, this`pendingTimers, this`ws, this`closes, this`callbacks
      ensures Valid()
      ensures reconnectTimer.None? && ws.None? && callbacks == NoCallbacks
      ensures pendingTimers == if old(reconnectTimer).Some? then old(pendingTimers) - {old(reconnectTimer).value}
                               else old(pendingTimers)
      ensures closes == old(closes) + (if old(ws).Some? then [(1000, "Client disconnect")] else [])
    {
      if reconnectTimer.Some? {
        pendingTimers := pendingTimers - {reconnectTimer.value};
        reconnectTimer := None;
      }
      if ws.Some? {
        closes := closes + [(1000, "Client disconnect")];
        ws := None;
      }
      callbacks := NoCallbacks;
    }

    /** `onMessage`, `onError`, `onConnect`, `onDisconnect`: register one callback. */
    method Register(kind: CallbackKind)
      modifies this`callbacks
      ensures callbacks == match kind
        case MessageCallback => old(callbacks).(onMessage := true)
        case ErrorCallback => old(callbacks).(onError := true)
        case ConnectCallback => old(callbacks).(onConnect := true)
        case DisconnectCallback => old(callbacks).(onDisconnect := true)
    {
      match kind
      case MessageCallback => callbacks := callbacks.(onMessage := true);
      case ErrorCallback => callbacks := callbacks.(onError := true);
      case ConnectCallback => callbacks := callbacks.(onConnect := true);
      case DisconnectCallback => callbacks := callbacks.(onDisconnect := true);
    }

    /** Hand a frame to the socket only while it is OPEN. */
    method SendWhenOpen(frame: Object)
      modifies this`sent
      ensures sent == old(sent) + (if IsConnected() then [frame] else [])
    {
      if IsConnected() {
        sent := sent + [frame];
      }
    }

    method JoinRoom(roomId: int, anonymousName: Option<string>)
      modifies this`sent
      ensures sent == old(sent) + (if IsConnected() then [JoinFrame(roomId, anonymousName)] else [])
    {
      SendWhenOpen(JoinFrame(roomId, anonymousName));
    }

    method SendMessage(roomId: int, content: string, anonymousName: Option<string>)
      modifies this`sent
      ensures sent == old(sent) + (if IsConnected() then [MessageFrame(roomId, content, anonymousName)] else [])
    {
      SendWhenOpen(MessageFrame(roomId, content, anonymousName));
    }

    method SendTyping(roomId: int, isTyping: bool, anonymousName: Option<string>)
      modifies this`sent
      ensures sent == old(sent) + (if IsConnected() then [TypingFrame(roomId, isTyping, anonymousName)] else [])
    {
      SendWhenOpen(TypingFrame(roomId, isTyping, anonymousName));
    }
  }

  /** Between two successful opens, at most five reconnects are scheduled, however the socket closes. */
  method UncleanCloses(service: WebSocketService, closes: nat)
    requires service.Valid() && service.reconnectAttempts == 0
    modifies service`isConnecting, service`notices, service`reconnectAttempts, service`reconnectTimer,
             service`pendingTimers, service`nextTimer
    ensures service.Valid()
    ensures service.reconnectAttempts == if closes < MaxReconnectAttempts then closes else MaxReconnectAttempts
  {
    var k := 0;
    while k < closes
      invariant k <= closes && service.Valid()
      invariant service.reconnectAttempts == if k < MaxReconnectAttempts then k else MaxReconnectAttempts
    {
      service.OnClose(false);
      k := k + 1;
    }
  }
}
