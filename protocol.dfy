/**
 * How the browser client and the Channels consumer fit together: the query
 * string the client builds is the one the consumer parses, and the frames
 * the client sends are the ones the consumer dispatches.
 */
module Protocol {
  import opened Common
  import opened Text
  import opened Json
  import opened Store
  import opened Consumer
  import opened Client
  import Views

  /** The part of a URL after its first `?`, as the server receives it; empty without one. */
  function QueryOf(url: string): (q: string)
    ensures |q| <= |url|
  {
    match FindFrom(url, "?", 0)
    case Some(i) => url[i + 1..]
    case None => []
  }

  /** A string with no `=` holds no `token=`. */
  lemma NoMarkerWithoutEquals(e: string)
    requires forall i :: 0 <= i < |e| ==> e[i] != '='
    ensures !Contains(e, "token=")
  {
    forall j: nat | j <= |e| ensures !OccursAt(e, "token=", j) {
      if j + 6 <= |e| {
        assert e[j..j + 6][5] == e[j + 5];
      }
    }
  }

  /** The consumer reads back exactly the value that follows a leading `token=` free of `=`. */
  lemma {:induction false} TokenAfterSoleMarker(e: string)
    requires forall i :: 0 <= i < |e| ==> e[i] != '='
    ensures TokenFromQuery(TokenParam + "=" + e) == Some(e)
  {
    var q := TokenParam + "=" + e;
    assert OccursAt(q, "token=", 0) by { assert q[0..6] == "token="; }
    LastPieceFollowsLastSeparator(q, "token=");
    var r := Last(Split(q, "token="));
    var p := |q| - |r| - 6;
    assert q[p..p + 6] == "token=";
    assert q[p + 5] == q[p..p + 6][5] == '=';
    assert forall j :: 6 <= j < |q| ==> q[j] == e[j - 6];
    assert p == 0;
    assert r == q[6..] == e;
  }

  /** The query string is everything after the base, whose text holds no `?`. */
  lemma QueryAfterBase(rest: string)
    ensures QueryOf(WsBase + "?" + rest) == rest
  {
    var url := WsBase + "?" + rest;
    assert OccursAt(url, "?", |WsBase|) by { assert url[|WsBase|..|WsBase| + 1] == "?"; }
    assert forall j: nat :: j < |WsBase| ==> !OccursAt(url, "?", j) by {
      forall j: nat | j < |WsBase| ensures !OccursAt(url, "?", j) {
        assert url[j..j + 1][0] == WsBase[j];
      }
    }
    assert FindFrom(url, "?", 0) == Some(|WsBase|);
    assert url[|WsBase| + 1..] == rest;
  }

  /**
   * A client with a token reaches the consumer with that token in its
   * serialized form; a token in JWT form arrives unchanged.
   */
  lemma TokenReachesConsumer(t: string)
    requires t != []
    ensures TokenFromQuery(QueryOf(BuildUrl(Some(t), false))) == Some(FormEncode(t))
    ensures JwtText(t) ==> TokenFromQuery(QueryOf(BuildUrl(Some(t), false))) == Some(t)
  {
    QueryAfterBase(TokenParam + "=" + FormEncode(t));
    TokenAfterSoleMarker(FormEncode(t));
    if JwtText(t) {
      JwtTokenUnencoded(t);
    }
  }

  /** An anonymous client presents no token, and its consumer has no user. */
  lemma AnonymousClientHasNoUser(token: Option<string>, tokens: map<string, UserId>, users: seq<User>)
    ensures TokenFromQuery(QueryOf(BuildUrl(token, true))).None?
    ensures AccountOf(tokens, users, TokenFromQuery(QueryOf(BuildUrl(token, true)))).None?
  {
    QueryAfterBase(AnonymousParam + "=" + FlagValue);
    assert !Contains(AnonymousParam + "=" + FlagValue, "token=") by {
      var q := AnonymousParam + "=" + FlagValue;
      forall j: nat | j <= |q| ensures !OccursAt(q, "token=", j) {
        if j + 6 <= |q| {
          assert q[j..j + 6][0] == q[j];
        }
      }
    }
  }

  /**
   * A scheduled reconnect calls `connect()` with default arguments, so its URL
   * has no query string and the new consumer has no user, whoever was signed in.
   */
  lemma ReconnectLosesIdentity(tokens: map<string, UserId>, users: seq<User>)
    ensures BuildUrl(None, false) == WsBase
    ensures TokenFromQuery(QueryOf(BuildUrl(None, false))).None?
    ensures AccountOf(tokens, users, TokenFromQuery(QueryOf(BuildUrl(None, false)))).None?
  {
    assert FindFrom(WsBase, "?", 0).None? by {
      assert forall j: nat :: j <= |WsBase| ==> !OccursAt(WsBase, "?", j) by {
        forall j: nat | j <= |WsBase| ensures !OccursAt(WsBase, "?", j) {
          if j < |WsBase| {
            assert WsBase[j..j + 1][0] == WsBase[j];
          }
        }
      }
    }
  }

  /** The client names the room `room_id`; the consumer reads only `chat_room_id`. */
  lemma ClientFramesNameNoRoom(roomId: int, content: string, isTyping: bool, anonymousName: Option<string>)
    ensures RoomIdField(JoinFrame(roomId, anonymousName)).None?
    ensures RoomIdField(MessageFrame(roomId, content, anonymousName)).None?
    ensures RoomIdField(TypingFrame(roomId, isTyping, anonymousName)).None?
  {
  }

  /** The consumer dispatches each client frame to the intended handler. */
  lemma ClientFramesDispatch(roomId: int, content: string, isTyping: bool, anonymousName: Option<string>)
    ensures Dispatch(Obj(JoinFrame(roomId, anonymousName))) == Join(JoinFrame(roomId, anonymousName))
    ensures Dispatch(Obj(MessageFrame(roomId, content, anonymousName))) ==
            Send(MessageFrame(roomId, content, anonymousName))
    ensures Dispatch(Obj(TypingFrame(roomId, isTyping, anonymousName))) ==
            Typing(TypingFrame(roomId, isTyping, anonymousName))
  {
  }

  /**
   * Whatever the tables hold, a message the client sends is never saved:
   * without `chat_room_id` the consumer stops before `save_message`.
   */
  lemma ClientMessagesAreNeverSaved(rooms: seq<Room>, user: Option<Account>, roomId: int, content: string,
                                    anonymousName: Option<string>, nextId: nat, now: int)
    ensures ContentField(MessageFrame(roomId, content, anonymousName)).Some?
    ensures SendOutcome(rooms, user, MessageFrame(roomId, content, anonymousName), nextId, now).None?
  {
  }

  /**
   * A message the consumer files under a name shows in the room's history as
   * anonymous, under that name; one filed by a participant without a name
   * shows under its sender's username.
   */
  lemma SavedMessageShowsInHistory(rooms: seq<Room>, users: seq<User>, user: Option<Account>, roomId: Json,
                                   content: string, anonymousName: Json, nextId: nat, now: int)
    requires SaveMessage(rooms, user, roomId, content, anonymousName, nextId, now).Some?
    requires user.Some? ==> HasRow(users, user.value.id) && RowAt(users, user.value.id).username == user.value.username
    ensures var room := RowAt(rooms, LookupId(rooms, roomId).id);
      var row := SaveMessage(rooms, user, roomId, content, anonymousName, nextId, now).value.row;
      var entry := Views.MessageEntryOf(users, nextId, row);
      && entry.content == content
      && (entry.isAnonymous <==> room.roomType == Anonymous || Truthy(anonymousName))
      && (entry.isAnonymous ==> entry.senderName == AnonymousLabel(anonymousName))
      && (!entry.isAnonymous ==> entry.senderName == user.value.username)
  {
    if Truthy(anonymousName) {
      Views.TruthyPrintsNonEmpty(anonymousName);
    }
  }
}
