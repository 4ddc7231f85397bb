/**
 * The Django HTTP views: registration, the friend-request state machine, user
 * search with its friendship classification, chat-room creation and message
 * history.  The caller is the user the request's bearer token resolves to
 * (`None` when it resolves to nobody); each view's guard chain is a function,
 * and the changes it makes to the tables are methods on `Database`.
 */
module Views {
  import opened Common
  import opened Text
  import opened Json
  import opened Store

  datatype ViewError =
    | CredentialsRequired     // 400 'Username and password required'
    | UsernameExists          // 400 'Username already exists'
    | AuthenticationRequired  // 401
    | ReceiverIdRequired      // 400 'receiver_id required'
    | UserNotFound            // 404
    | SelfRequest             // 400 'Cannot send friend request to yourself'
    | AlreadyFriends          // 400
    | RequestExists           // 400 'Friend request already exists'
    | InvalidAction           // 400
    | RequestNotFound         // 404 'Friend request not found'
    | OtherUserRequired       // 400 'other_user_id required for private chat'
    | NotFriends              // 403 'You must be friends to chat'
    | AccessDenied            // 403
    | RoomNotFound            // 404 'Chat room not found'
    | ServerError             // 500: any other exception

  function ErrorStatus(e: ViewError): int {
    match e
    case AuthenticationRequired => 401
    case UserNotFound | RequestNotFound | RoomNotFound => 404
    case NotFriends | AccessDenied => 403
    case ServerError => 500
    case _ => 400
  }

  /** `friendship_status` in a search result. */
  datatype FriendshipStatus = Friend | RequestSent | RequestReceived | NoRelation

  datatype UserEntry = UserEntry(id: UserId, username: string, email: string, friendshipStatus: FriendshipStatus)

  datatype MessageEntry = MessageEntry(
    id: nat, content: string, senderName: string, senderId: Option<UserId>, isAnonymous: bool, timestamp: int)

  datatype Response =
    | Error(error: ViewError)
    | UserCreated(userId: UserId, username: Json)
    | FriendRequestSent(requestId: nat)
    | FriendRequestAccepted
    | FriendRequestRejected
    | UserList(users: seq<UserEntry>)
    | RoomCreated(roomId: RoomId, roomType: RoomType, name: Json)
    | PrivateChatOpened(user: UserId, other: UserId)   // the room `ChatRoom.get_private_chat` yields
    | MessageList(messages: seq<MessageEntry>)

  function StatusCode(r: Response): int {
    match r
    case Error(e) => ErrorStatus(e)
    case UserCreated(_, _) | FriendRequestSent(_) | RoomCreated(_, _, _) | PrivateChatOpened(_, _) => 201
    case _ => 200
  }

  lemma TruthyPrintsNonEmpty(v: Json)
    requires Truthy(v)
    ensures PyStr(v) != []
  {
  }

  // ---------------------------------------------------------------------
  // register

  predicate UsernameTaken(users: seq<User>, name: string) {
    exists i :: 0 <= i < |users| && users[i].username == name
  }

  predicate UniqueUsernames(users: seq<User>) {
    forall i, j :: 0 <= i < j < |users| ==> users[i].username != users[j].username
  }

  /** Both `username` and `password` are given and truthy. */
  predicate HasCredentials(data: Object) {
    PresentAndTruthy(Get(data, "username")) && PresentAndTruthy(Get(data, "password"))
  }

  /**
   * Django's `BaseUserManager.normalize_email`, applied to `email or ''`.  A
   * text holding an `@` is stripped and the domain after its last `@` is
   * lower-cased.  A text without `@` comes back as it was, not even stripped,
   * and a falsy or missing value becomes `''`.  A truthy value that is not
   * text has no `strip` method, so the call raises (`None`).
   */
  function NormalizeEmail(email: Option<Json>): (r: Option<string>)
    ensures r.None? <==> PresentAndTruthy(email) && !email.value.JStr?
    ensures !PresentAndTruthy(email) ==> r == Some("")
    ensures PresentAndTruthy(email) && email.value.JStr? && !Contains(Strip(email.value.s), "@") ==>
      r == Some(email.value.s)
    ensures PresentAndTruthy(email) && email.value.JStr? && Contains(Strip(email.value.s), "@") ==>
      var t := Strip(email.value.s);
      var domain := DomainPart(t);
      r == Some(t[..|t| - |domain|] + AsciiLowerString(domain))
  {
    if !PresentAndTruthy(email) then Some("")
    else match email.value
      case JStr(s) =>
        var t := Strip(s);
        if !Contains(t, "@") then Some(s)
        else
          var domain := DomainPart(t);
          var name := t[..|t| - |domain| - 1];
          assert name + "@" == t[..|t| - |domain|] by {
            assert t[|t| - |domain| - 1..|t| - |domain|] == "@";
          }
          Some(name + "@" + AsciiLowerString(domain))
      case _ => None
  }

  /** The domain `email.rsplit('@', 1)` splits off: what follows the last `@`. */
  function DomainPart(t: string): (domain: string)
    requires Contains(t, "@")
    ensures FollowsLastSeparator(t, "@", domain)
  {
    LastPieceFollowsLastSeparator(t, "@");
    Last(Split(t, "@"))
  }

  /** An address `register` stores is already normalised: normalising it again changes nothing. */
  lemma NormalizeEmailIdempotent(email: Option<Json>)
    requires NormalizeEmail(email).Some?
    ensures NormalizeEmail(Some(JStr(NormalizeEmail(email).value))) == NormalizeEmail(email)
  {
    if !PresentAndTruthy(email) {
      assert NormalizeEmail(email) == Some("");
    } else {
      var s := email.value.s;
      assert email == Some(JStr(s));
      var t := Strip(s);
      if Contains(t, "@") {
        var domain := DomainPart(t);
        AddressParts(t);
        LoweredDomainIsNormal(t[..|t| - |domain|], domain);
      }
    }
  }

  /**
   * A stripped address holding an `@` is the part up to and including its
   * last `@`, which starts with a non-space character, followed by a domain
   * with no `@` that ends where the address does.
   */
  lemma AddressParts(t: string)
    requires Contains(t, "@") && t != [] && !IsSpace(t[0]) && !IsSpace(t[|t| - 1])
    ensures var domain := DomainPart(t); var prefix := t[..|t| - |domain|];
      && prefix != [] && !IsSpace(prefix[0]) && prefix[|prefix| - 1] == '@'
      && !Contains(domain, "@") && (domain != [] ==> !IsSpace(domain[|domain| - 1]))
  {
    var domain := DomainPart(t);
    var prefix := t[..|t| - |domain|];
    assert prefix[0] == t[0];
    assert prefix[|prefix| - 1] == t[|t| - |domain| - 1..|t| - |domain|][0];
    if domain != [] {
      assert domain[|domain| - 1] == t[|t| - 1];
    }
  }

  /** Normalising an address whose domain is already lower-cased gives it back. */
  lemma LoweredDomainIsNormal(prefix: string, domain: string)
    requires prefix != [] && !IsSpace(prefix[0]) && prefix[|prefix| - 1] == '@' && !Contains(domain, "@")
    requires domain != [] ==> !IsSpace(domain[|domain| - 1])
    ensures NormalizeEmail(Some(JStr(prefix + AsciiLowerString(domain)))) == Some(prefix + AsciiLowerString(domain))
  {
    var lower := AsciiLowerString(domain);
    var e := prefix + lower;
    LoweredDomainStrips(prefix, domain);
    LoweredDomainSplits(prefix, domain);
    AsciiLowerIdempotent(domain);
    assert e[..|e| - |lower|] == prefix;
    assert Truthy(JStr(e));
  }

  /**
   * Lower-casing the domain at the end of an address that starts and ends
   * with a non-space character leaves it stripped.
   */
  lemma LoweredDomainStrips(prefix: string, domain: string)
    requires prefix != [] && !IsSpace(prefix[0]) && prefix[|prefix| - 1] == '@'
    requires domain != [] ==> !IsSpace(domain[|domain| - 1])
    ensures prefix + AsciiLowerString(domain) != [] && Strip(prefix + AsciiLowerString(domain)) == prefix + AsciiLowerString(domain)
  {
    var lower := AsciiLowerString(domain);
    if domain != [] {
      assert lower[|lower| - 1] == AsciiLower(domain[|domain| - 1]);
      AsciiLowerKeepsNonSpace(domain[|domain| - 1]);
    }
    StripConcatUnchanged(prefix, lower);
  }

  /** After lower-casing the domain, the last `@` is still the one in front of it. */
  lemma LoweredDomainSplits(prefix: string, domain: string)
    requires prefix != [] && prefix[|prefix| - 1] == '@' && !Contains(domain, "@")
    ensures Contains(prefix + AsciiLowerString(domain), "@")
    ensures DomainPart(prefix + AsciiLowerString(domain)) == AsciiLowerString(domain)
  {
    var lower := AsciiLowerString(domain);
    AsciiLowerKeepsAt(domain);
    FollowsAfterPrefix(prefix, lower);
    LastSeparatorUnique(prefix + lower, "@", DomainPart(prefix + lower), lower);
  }

  /** Text with no `@` that follows one is what follows the last `@`. */
  lemma FollowsAfterPrefix(prefix: string, x: string)
    requires prefix != [] && prefix[|prefix| - 1] == '@' && !Contains(x, "@")
    ensures Contains(prefix + x, "@") && FollowsLastSeparator(prefix + x, "@", x)
  {
    var e := prefix + x;
    assert e[|prefix| - 1..|prefix|] == "@";
    assert e[|e| - |x|..] == x;
    assert OccursAt(e, "@", |prefix| - 1);
  }

  /**
   * The name the `username` column receives: `normalize_username` applies
   * NFKC (here the parameter `nfkc`) to text and passes any other value
   * through, which the column then stores as its `str`.
   */
  function StoredUsername(nfkc: string -> string, v: Json): string {
    match v
    case JStr(s) => nfkc(s)
    case _ => PyStr(v)
  }

  /**
   * The `username` the response echoes: `user.username` is the normalised
   * text, or the request's own value when that is not text.
   */
  function EchoedUsername(nfkc: string -> string, v: Json): (r: Json)
    ensures PyStr(r) == StoredUsername(nfkc, v)
    ensures r.JStr? <==> v.JStr?
    ensures !v.JStr? ==> r == v
  {
    match v
    case JStr(s) => JStr(nfkc(s))
    case _ => v
  }

  /**
   * `create_user` raises, which `register` answers with 500: `make_password`
   * refuses a password that is not text, `normalize_email` fails on a truthy
   * address that is not text, and a normalised name another user already
   * holds violates the unique constraint on `username`.
   */
  predicate CreateUserRaises(users: seq<User>, nfkc: string -> string, data: Object)
    requires "username" in data && "password" in data
  {
    || !data["password"].JStr?
    || NormalizeEmail(Get(data, "email")).None?
    || UsernameTaken(users, StoredUsername(nfkc, data["username"]))
  }

  /**
   * The guard chain of `register` followed by `create_user`: credentials
   * first, then the duplicate check on the name as given, then whatever
   * `create_user` raises.  On success, the row inserted.
   */
  function RegisterCheck(users: seq<User>, nfkc: string -> string, body: Inbound): (r: Result<User, ViewError>)
    ensures r == Failure(CredentialsRequired) <==> body.Obj? && !HasCredentials(body.fields)
    ensures r == Failure(UsernameExists) <==>
      body.Obj? && HasCredentials(body.fields) && UsernameTaken(users, PyStr(body.fields["username"]))
    ensures r == Failure(ServerError) <==>
      !body.Obj? ||
      (HasCredentials(body.fields) && !UsernameTaken(users, PyStr(body.fields["username"])) &&
       CreateUserRaises(users, nfkc, body.fields))
    ensures r.Success? <==>
      body.Obj? && HasCredentials(body.fields) && !UsernameTaken(users, PyStr(body.fields["username"])) &&
      !CreateUserRaises(users, nfkc, body.fields)
    ensures r.Success? ==>
      && r.value.username == StoredUsername(nfkc, body.fields["username"])
      && !UsernameTaken(users, r.value.username)
      && Some(r.value.email) == NormalizeEmail(Get(body.fields, "email"))
  {
    match body
    case Obj(data) =>
      var username := Get(data, "username");
      var password := Get(data, "password");
      if !PresentAndTruthy(username) || !PresentAndTruthy(password) then Failure(CredentialsRequired)
      else if UsernameTaken(users, PyStr(username.value)) then Failure(UsernameExists)
      else if CreateUserRaises(users, nfkc, data) then Failure(ServerError)
      else Success(User(StoredUsername(nfkc, username.value), NormalizeEmail(Get(data, "email")).value))
    case _ => Failure(ServerError)
  }

  /** A successful registration never introduces a second user with the same name. */
  lemma RegisterKeepsUsernamesUnique(users: seq<User>, nfkc: string -> string, body: Inbound)
    requires UniqueUsernames(users) && RegisterCheck(users, nfkc, body).Success?
    ensures UniqueUsernames(users + [RegisterCheck(users, nfkc, body).value])
  {
    var u := RegisterCheck(users, nfkc, body).value;
    var us := users + [u];
    forall i, j | 0 <= i < j < |us| ensures us[i].username != us[j].username {
      if j == |users| {
        assert us[i] == users[i];
      }
    }
  }

  /**
   * `register`: a refused request changes nothing; otherwise one user is
   * appended, and the response carries its key and the name `user.username`
   * holds.
   */
  method Register(db: Database, nfkc: string -> string, body: Inbound) returns (resp: Response)
    modifies db`users
    ensures RegisterCheck(old(db.users), nfkc, body).Failure? ==>
      resp == Error(RegisterCheck(old(db.users), nfkc, body).error) && db.users == old(db.users)
    ensures RegisterCheck(old(db.users), nfkc, body).Success? ==>
      var u := RegisterCheck(old(db.users), nfkc, body).value;
      db.users == old(db.users) + [u] &&
      resp == UserCreated(|db.users|, EchoedUsername(nfkc, body.fields["username"]))
  {
    match RegisterCheck(db.users, nfkc, body)
    case Failure(e) => resp := Error(e);
    case Success(u) =>
      db.users := db.users + [u];
      resp := UserCreated(|db.users|, EchoedUsername(nfkc, body.fields["username"]));
  }

  // ---------------------------------------------------------------------
  // send_friend_request and respond_friend_request

  /** Request `q` is pending between `a` and `b`, in either direction. */
  predicate PendingPair(q: FriendRequest, a: UserId, b: UserId) {
    q.status == Pending && ((q.sender == a && q.receiver == b) || (q.sender == b && q.receiver == a))
  }

  predicate PendingBetween(requests: seq<FriendRequest>, a: UserId, b: UserId) {
    exists i :: 0 <= i < |requests| && PendingPair(requests[i], a, b)
  }

  /**
   * The guard chain of `send_friend_request`, in order: authenticated,
   * `receiver_id` given, receiver exists, not oneself, not already friends,
   * no pending request either way.  On success, the receiver's id.
   */
  function SendRequestCheck(users: seq<User>, friendships: seq<Friendship>, requests: seq<FriendRequest>,
                            caller: Option<UserId>, body: Inbound): (r: Result<UserId, ViewError>)
    ensures r == Failure(AuthenticationRequired) <==> caller.None?
    ensures caller.Some? && !body.Obj? ==> r == Failure(ServerError)
    ensures r == Failure(ReceiverIdRequired) <==>
      caller.Some? && body.Obj? && !PresentAndTruthy(Get(body.fields, "receiver_id"))
    ensures r == Failure(ServerError) <==>
      caller.Some? &&
      (!body.Obj? ||
       (PresentAndTruthy(Get(body.fields, "receiver_id")) &&
        LookupId(users, body.fields["receiver_id"]) == LookupRaises))
    ensures r.Success? <==>
      caller.Some? && body.Obj? && PresentAndTruthy(Get(body.fields, "receiver_id")) &&
      var found := LookupId(users, body.fields["receiver_id"]);
      found.Found? && found.id != caller.value && !AreFriends(friendships, caller.value, found.id) &&
      !PendingBetween(requests, caller.value, found.id)
    ensures r.Success? ==> r.value == LookupId(users, body.fields["receiver_id"]).id
    ensures r == Failure(UserNotFound) <==>
      caller.Some? && body.Obj? && PresentAndTruthy(Get(body.fields, "receiver_id")) &&
      LookupId(users, body.fields["receiver_id"]) == DoesNotExist
    ensures r == Failure(SelfRequest) <==>
      caller.Some? && body.Obj? && PresentAndTruthy(Get(body.fields, "receiver_id")) &&
      LookupId(users, body.fields["receiver_id"]) == Found(caller.value)
    ensures r == Failure(AlreadyFriends) <==>
      caller.Some? && body.Obj? && PresentAndTruthy(Get(body.fields, "receiver_id")) &&
      var found := LookupId(users, body.fields["receiver_id"]);
      found.Found? && found.id != caller.value && AreFriends(friendships, caller.value, found.id)
    ensures r == Failure(RequestExists) <==>
      caller.Some? && body.Obj? && PresentAndTruthy(Get(body.fields, "receiver_id")) &&
      var found := LookupId(users, body.fields["receiver_id"]);
      found.Found? && found.id != caller.value && !AreFriends(friendships, caller.value, found.id) &&
      PendingBetween(requests, caller.value, found.id)
  {
    if caller.None? then Failure(AuthenticationRequired)
    else match body
      case Obj(data) =>
        var receiverId := Get(data, "receiver_id");
        if !PresentAndTruthy(receiverId) then Failure(ReceiverIdRequired)
        else (match LookupId(users, receiverId.value)
          case LookupRaises => Failure(ServerError)
          case DoesNotExist => Failure(UserNotFound)
          case Found(receiver) =>
            if caller.value == receiver then Failure(SelfRequest)
            else if AreFriends(friendships, caller.value, receiver) then Failure(AlreadyFriends)
            else if PendingBetween(requests, caller.value, receiver) then Failure(RequestExists)
            else Success(receiver))
      case _ => Failure(ServerError)
  }

  method SendFriendRequest(db: Database, caller: Option<UserId>, body: Inbound) returns (resp: Response)
    modifies db`requests
    ensures var check := SendRequestCheck(db.users, db.friendships, old(db.requests), caller, body);
      (check.Failure? ==> resp == Error(check.error) && db.requests == old(db.requests)) &&
      (check.Success? ==>
         db.requests == old(db.requests) + [FriendRequest(caller.value, check.value, Pending)] &&
         resp == FriendRequestSent(|db.requests|))
  {
    match SendRequestCheck(db.users, db.friendships, db.requests, caller, body)
    case Failure(e) => resp := Error(e);
    case Success(receiver) =>
      db.requests := db.requests + [FriendRequest(caller.value, receiver, Pending)];
      resp := FriendRequestSent(|db.requests|);
  }

  /**
   * The guard chain of `respond_friend_request`: authenticated, the action is
   * `accept` or `reject`, and the request is pending with the caller as its
   * receiver.  On success, whether it is accepted.
   */
  function RespondCheck(requests: seq<FriendRequest>, caller: Option<UserId>, requestId: int, body: Inbound)
    : (r: Result<bool, ViewError>)
    ensures r == Failure(AuthenticationRequired) <==> caller.None?
    ensures r == Failure(ServerError) <==> caller.Some? && !body.Obj?
    ensures r == Failure(InvalidAction) <==>
      caller.Some? && body.Obj? && Get(body.fields, "action") !in {Some(JStr("accept")), Some(JStr("reject"))}
    ensures r == Failure(RequestNotFound) <==>
      caller.Some? && body.Obj? && Get(body.fields, "action") in {Some(JStr("accept")), Some(JStr("reject"))} &&
      !(HasRow(requests, requestId) && RowAt(requests, requestId).receiver == caller.value &&
        RowAt(requests, requestId).status == Pending)
    ensures r.Success? <==>
      caller.Some? && body.Obj? && Get(body.fields, "action") in {Some(JStr("accept")), Some(JStr("reject"))} &&
      HasRow(requests, requestId) && RowAt(requests, requestId).receiver == caller.value &&
      RowAt(requests, requestId).status == Pending
    ensures r.Success? ==> (r.value <==> Get(body.fields, "action") == Some(JStr("accept")))
  {
    if caller.None? then Failure(AuthenticationRequired)
    else match body
      case Obj(data) =>
        var action := Get(data, "action");
        if action != Some(JStr("accept")) && action != Some(JStr("reject")) then Failure(InvalidAction)
        else if HasRow(requests, requestId) && RowAt(requests, requestId).receiver == caller.value &&
                RowAt(requests, requestId).status == Pending
        then Success(action == Some(JStr("accept")))
        else Failure(RequestNotFound)
      case _ => Failure(ServerError)
  }

  /**
   * `respond_friend_request`: accepting marks the request accepted and adds a
   * friendship between its sender and receiver; rejecting marks it rejected
   * and adds nothing.
   */
  method RespondFriendRequest(db: Database, caller: Option<UserId>, requestId: int, body: Inbound)
    returns (resp: Response)
    modifies db`requests, db`friendships
    ensures var check := RespondCheck(old(db.requests), caller, requestId, body);
      (check.Failure? ==>
         resp == Error(check.error) && db.requests == old(db.requests) && db.friendships == old(db.friendships)) &&
      (check.Success? ==>
         var q := RowAt(old(db.requests), requestId);
         if check.value then
           db.requests == old(db.requests)[requestId - 1 := q.(status := Accepted)] &&
           db.friendships == old(db.friendships) + [Friendship(q.sender, q.receiver)] &&
           resp == FriendRequestAccepted
         else
           db.requests == old(db.requests)[requestId - 1 := q.(status := Rejected)] &&
           db.friendships == old(db.friendships) && resp == FriendRequestRejected)
  {
    match RespondCheck(db.requests, caller, requestId, body)
    case Failure(e) => resp := Error(e);
    case Success(accept) =>
      var q := RowAt(db.requests, requestId);
      if accept {
        db.requests := db.requests[requestId - 1 := q.(status := Accepted)];
        db.friendships := db.friendships + [Friendship(q.sender, q.receiver)];
        resp := FriendRequestAccepted;
      } else {
        db.requests := db.requests[requestId - 1 := q.(status := Rejected)];
        resp := FriendRequestRejected;
      }
  }

  /**
   * What the friend-request views keep true of the tables: nobody has a
   * request to themselves, two users have at most one pending request
   * between them, there is none between friends, and no friendship is
   * recorded twice.
   */
  ghost predicate FriendGraphValid(requests: seq<FriendRequest>, friendships: seq<Friendship>) {
    && (forall i :: 0 <= i < |requests| ==> requests[i].sender != requests[i].receiver)
    && (forall i, j :: 0 <= i < j < |requests| && requests[i].status == Pending ==>
          !PendingPair(requests[j], requests[i].sender, requests[i].receiver))
    && (forall i :: 0 <= i < |requests| && requests[i].status == Pending ==>
          !AreFriends(friendships, requests[i].sender, requests[i].receiver))
    && (forall i, j :: 0 <= i < j < |friendships| ==>
          !Links(friendships[j], friendships[i].user1, friendships[i].user2))
  }

  /** A request that passes every guard of `send_friend_request` keeps the tables valid. */
  lemma SendKeepsFriendGraphValid(users: seq<User>, friendships: seq<Friendship>, requests: seq<FriendRequest>,
                                  caller: Option<UserId>, body: Inbound)
    requires FriendGraphValid(requests, friendships)
    requires SendRequestCheck(users, friendships, requests, caller, body).Success?
    ensures var q := FriendRequest(caller.value, SendRequestCheck(users, friendships, requests, caller, body).value, Pending);
      FriendGraphValid(requests + [q], friendships) && PendingBetween(requests + [q], q.sender, q.receiver)
  {
    var receiver := SendRequestCheck(users, friendships, requests, caller, body).value;
    var q := FriendRequest(caller.value, receiver, Pending);
    var rs := requests + [q];
    forall i, j | 0 <= i < j < |rs| && rs[i].status == Pending
      ensures !PendingPair(rs[j], rs[i].sender, rs[i].receiver)
    {
      if j == |requests| {
        assert rs[i] == requests[i];
        assert !PendingPair(requests[i], caller.value, receiver);
      } else {
        assert rs[i] == requests[i] && rs[j] == requests[j];
      }
    }
    assert rs[|requests|] == q;
  }

  /** Accepting or rejecting a pending request keeps the tables valid; accepting makes the two friends. */
  lemma RespondKeepsFriendGraphValid(requests: seq<FriendRequest>, friendships: seq<Friendship>, k: nat, accept: bool)
    requires FriendGraphValid(requests, friendships)
    requires k < |requests| && requests[k].status == Pending
    ensures var q := requests[k];
      var rs := requests[k := q.(status := if accept then Accepted else Rejected)];
      var fs := if accept then friendships + [Friendship(q.sender, q.receiver)] else friendships;
      FriendGraphValid(rs, fs) && !PendingBetween(rs, q.sender, q.receiver) &&
      (accept ==> AreFriends(fs, q.sender, q.receiver))
  {
    var q := requests[k];
    var rs := requests[k := q.(status := if accept then Accepted else Rejected)];
    var fs := if accept then friendships + [Friendship(q.sender, q.receiver)] else friendships;
    // No other request is pending between the same two users.
    forall i | 0 <= i < |requests| && i != k ensures !PendingPair(requests[i], q.sender, q.receiver) {
      if i < k && requests[i].status == Pending {
        assert !PendingPair(requests[k], requests[i].sender, requests[i].receiver);
      }
    }
    assert !PendingBetween(rs, q.sender, q.receiver) by {
      forall i | 0 <= i < |rs| ensures !PendingPair(rs[i], q.sender, q.receiver) {
        if i != k { assert rs[i] == requests[i]; }
      }
    }
    if accept {
      assert Links(fs[|friendships|], q.sender, q.receiver);
      forall i | 0 <= i < |rs| && rs[i].status == Pending
        ensures !AreFriends(fs, rs[i].sender, rs[i].receiver)
      {
        assert i != k && rs[i] == requests[i];
        forall j | 0 <= j < |fs| ensures !Links(fs[j], rs[i].sender, rs[i].receiver) {
          if j < |friendships| {
            assert fs[j] == friendships[j];
          } else {
            assert !PendingPair(requests[i], q.sender, q.receiver);
          }
        }
      }
      forall i, j | 0 <= i < j < |fs| ensures !Links(fs[j], fs[i].user1, fs[i].user2) {
        if j == |friendships| {
          assert !Links(friendships[i], q.sender, q.receiver);
        }
      }
    }
  }

  // ---------------------------------------------------------------------
  // search_users

  /** Receivers of the caller's pending requests. */
  function SentTo(requests: seq<FriendRequest>, caller: UserId): set<UserId> {
    set i | 0 <= i < |requests| && requests[i].status == Pending && requests[i].sender == caller :: requests[i].receiver
  }

  /** Senders of pending requests to the caller. */
  function ReceivedFrom(requests: seq<FriendRequest>, caller: UserId): set<UserId> {
    set i | 0 <= i < |requests| && requests[i].status == Pending && requests[i].receiver == caller :: requests[i].sender
  }

  /** The `friendship_status` of `u`: friend first, then a request sent, then one received. */
  function StatusOf(friends: set<UserId>, sent: set<UserId>, received: set<UserId>, u: UserId): (s: FriendshipStatus)
    ensures s == Friend <==> u in friends
    ensures s == RequestSent <==> u !in friends && u in sent
    ensures s == RequestReceived <==> u !in friends && u !in sent && u in received
    ensures s == NoRelation <==> u !in friends && u !in sent && u !in received
  {
    if u in friends then Friend
    else if u in sent then RequestSent
    else if u in received then RequestReceived
    else NoRelation
  }

  /** On valid tables at most one of the three relations holds, so the priority order never decides. */
  lemma StatusIsExclusive(requests: seq<FriendRequest>, friendships: seq<Friendship>, caller: UserId, u: UserId)
    requires FriendGraphValid(requests, friendships)
    ensures var s := StatusOf(FriendIds(friendships, caller), SentTo(requests, caller), ReceivedFrom(requests, caller), u);
      (s == RequestSent <==> u in SentTo(requests, caller)) &&
      (s == RequestReceived <==> u in ReceivedFrom(requests, caller))
  {
    if u in SentTo(requests, caller) {
      var i :| 0 <= i < |requests| && requests[i].status == Pending && requests[i].sender == caller && requests[i].receiver == u;
      assert !AreFriends(friendships, caller, u);
    }
    if u in ReceivedFrom(requests, caller) {
      var j :| 0 <= j < |requests| && requests[j].status == Pending && requests[j].receiver == caller && requests[j].sender == u;
      assert !AreFriends(friendships, u, caller);
      AreFriendsSymmetric(friendships, caller, u);
      forall i | 0 <= i < |requests|
        ensures !(requests[i].status == Pending && requests[i].sender == caller && requests[i].receiver == u)
      {
        if i < j && requests[i].status == Pending {
          assert !PendingPair(requests[j], requests[i].sender, requests[i].receiver);
        } else if j < i {
          assert !PendingPair(requests[i], requests[j].sender, requests[j].receiver);
        } else if i == j {
          assert requests[j].sender != requests[j].receiver;
        }
      }
    }
  }

  lemma AreFriendsSymmetric(fs: seq<Friendship>, a: UserId, b: UserId)
    ensures AreFriends(fs, a, b) == AreFriends(fs, b, a)
  {
    assert forall i :: 0 <= i < |fs| ==> (Links(fs[i], a, b) <==> Links(fs[i], b, a));
  }

  /** User `id` matches the query: `username__icontains` or `email__icontains`, and is not the caller. */
  predicate Matches(users: seq<User>, caller: UserId, query: string, id: UserId) {
    HasRow(users, id) && id != caller &&
    (IContains(RowAt(users, id).username, query) || IContains(RowAt(users, id).email, query))
  }

  /** The ids of the matching users with keys above `from`, in key order. */
  function MatchingFrom(users: seq<User>, caller: UserId, query: string, from: nat): (ids: seq<UserId>)
    requires from <= |users|
    decreases |users| - from
    ensures forall k :: 0 <= k < |ids| ==> from < ids[k] && Matches(users, caller, query, ids[k])
    ensures forall k, l :: 0 <= k < l < |ids| ==> ids[k] < ids[l]
    ensures forall id :: from < id <= |users| && Matches(users, caller, query, id) ==> id in ids
  {
    if from == |users| then []
    else
      var rest := MatchingFrom(users, caller, query, from + 1);
      if Matches(users, caller, query, from + 1) then [from + 1] + rest else rest
  }

  /** `[:20]` of the matching users. */
  function SearchPage(users: seq<User>, caller: UserId, query: string): (page: seq<UserId>)
    ensures |page| <= 20
    ensures forall k :: 0 <= k < |page| ==> Matches(users, caller, query, page[k])
    ensures forall k, l :: 0 <= k < l < |page| ==> page[k] < page[l]
    ensures |page| < 20 ==> forall id :: 0 < id <= |users| && Matches(users, caller, query, id) ==> id in page
  {
    var all := MatchingFrom(users, caller, query, 0);
    if |all| <= 20 then all else all[..20]
  }

  function Entry(users: seq<User>, friendships: seq<Friendship>, requests: seq<FriendRequest>, caller: UserId, id: UserId)
    : UserEntry
    requires HasRow(users, id)
  {
    UserEntry(id, RowAt(users, id).username, RowAt(users, id).email,
              StatusOf(FriendIds(friendships, caller), SentTo(requests, caller), ReceivedFrom(requests, caller), id))
  }

  /**
   * The loop of `search_users` that lists each user on the page with its
   * username, email and friendship status.
   */
  method ListEntries(users: seq<User>, friends: set<UserId>, sent: set<UserId>, received: set<UserId>,
                     page: seq<UserId>) returns (usersData: seq<UserEntry>)
    requires forall k :: 0 <= k < |page| ==> HasRow(users, page[k])
    ensures |usersData| == |page|
    ensures forall k :: 0 <= k < |page| ==>
      usersData[k] == UserEntry(page[k], RowAt(users, page[k]).username, RowAt(users, page[k]).email,
                                StatusOf(friends, sent, received, page[k]))
  {
    usersData := [];
    for k := 0 to |page|
      invariant |usersData| == k
      invariant forall j :: 0 <= j < k ==>
        usersData[j] == UserEntry(page[j], RowAt(users, page[j]).username, RowAt(users, page[j]).email,
                                  StatusOf(friends, sent, received, page[j]))
    {
      var u := page[k];
      usersData := usersData + [UserEntry(u, RowAt(users, u).username, RowAt(users, u).email,
                                          StatusOf(friends, sent, received, u))];
    }
  }

  /**
   * `search_users`: an unauthenticated caller is refused; a blank query
   * answers no users; otherwise at most 20 matching users other than the
   * caller, each with its friendship status.
   */
  method SearchUsers(users: seq<User>, friendships: seq<Friendship>, requests: seq<FriendRequest>,
                     caller: Option<UserId>, q: Option<string>) returns (resp: Response)
    ensures caller.None? ==> resp == Error(AuthenticationRequired)
    ensures caller.Some? && Strip(q.GetOr("")) == [] ==> resp == UserList([])
    ensures caller.Some? && Strip(q.GetOr("")) != [] ==>
      var page := SearchPage(users, caller.value, Strip(q.GetOr("")));
      resp.UserList? && |resp.users| == |page| &&
      forall k :: 0 <= k < |page| ==> resp.users[k] == Entry(users, friendships, requests, caller.value, page[k])
  {
    if caller.None? {
      return Error(AuthenticationRequired);
    }
    var query := Strip(q.GetOr(""));
    if query == [] {
      return UserList([]);
    }
    var page := SearchPage(users, caller.value, query);
    var usersData := ListEntries(users, FriendIds(friendships, caller.value), SentTo(requests, caller.value),
                                 ReceivedFrom(requests, caller.value), page);
    resp := UserList(usersData);
  }

  /** Search results never list the caller, and every listed user matches the query. */
  lemma SearchExcludesCaller(users: seq<User>, caller: UserId, query: string)
    ensures forall k :: 0 <= k < |SearchPage(users, caller, query)| ==>
      SearchPage(users, caller, query)[k] != caller &&
      HasRow(users, SearchPage(users, caller, query)[k])
  {
  }

  // ---------------------------------------------------------------------
  // create_chatroom

  /** An authenticated request for a private room (`room_type` absent or `'private'`). */
  predicate PrivateRoomRequested(caller: Option<UserId>, body: Inbound) {
    body.Obj? && caller.Some? && GetOr(body.fields, "room_type", JStr("private")) == JStr("private")
  }

  /**
   * What `create_chatroom` does once its guards pass.  A new room comes with
   * the `name` the response shows: `chatroom.name` as assigned, which is the
   * request's own value (or the default text), not the `str` the column holds.
   */
  datatype RoomPlan = NewRoom(room: Room, shownName: Json) | PrivateChat(other: UserId)

  /**
   * The guard chain of `create_chatroom`: an anonymous room needs no user;
   * any other room needs one; a private room needs a friend as the other
   * user; every other type creates a group holding the creator.
   */
  function CreateRoomCheck(users: seq<User>, friendships: seq<Friendship>, caller: Option<UserId>, body: Inbound)
    : (r: Result<RoomPlan, ViewError>)
    ensures !body.Obj? ==> r == Failure(ServerError)
    ensures body.Obj? && GetOr(body.fields, "room_type", JStr("private")) == JStr("anonymous") ==>
      var name := GetOr(body.fields, "name", JStr(""));
      r == Success(NewRoom(Room(if Truthy(name) then PyStr(name) else "Anonymous Chat", Anonymous, {}),
                           if Truthy(name) then name else JStr("Anonymous Chat")))
    ensures body.Obj? && caller.Some? &&
            GetOr(body.fields, "room_type", JStr("private")) !in {JStr("anonymous"), JStr("private")} ==>
      r == Success(NewRoom(Room(PyStr(GetOr(body.fields, "name", JStr(""))), Group, {caller.value}),
                           GetOr(body.fields, "name", JStr(""))))
    ensures r.Success? && r.value.NewRoom? ==> PyStr(r.value.shownName) == r.value.room.name
    ensures r == Failure(AuthenticationRequired) <==>
      body.Obj? && GetOr(body.fields, "room_type", JStr("private")) != JStr("anonymous") && caller.None?
    ensures r.Success? && r.value.PrivateChat? ==>
      caller.Some? && HasRow(users, r.value.other) && AreFriends(friendships, caller.value, r.value.other) &&
      GetOr(body.fields, "room_type", JStr("private")) == JStr("private")
    ensures r.Success? && r.value.NewRoom? && r.value.room.roomType != Anonymous ==>
      caller.Some? && r.value.room.roomType == Group && r.value.room.participants == {caller.value}
    ensures body.Obj? && caller.Some? && GetOr(body.fields, "room_type", JStr("private")) == JStr("private") ==>
      (r.Success? <==> PresentAndTruthy(Get(body.fields, "other_user_id")) &&
                       LookupId(users, body.fields["other_user_id"]).Found? &&
                       AreFriends(friendships, caller.value, LookupId(users, body.fields["other_user_id"]).id))
    ensures r.Success? && r.value.PrivateChat? ==> r.value.other == LookupId(users, body.fields["other_user_id"]).id
    ensures r == Failure(OtherUserRequired) <==>
      PrivateRoomRequested(caller, body) && !PresentAndTruthy(Get(body.fields, "other_user_id"))
    ensures r == Failure(ServerError) <==>
      !body.Obj? ||
      (PrivateRoomRequested(caller, body) && PresentAndTruthy(Get(body.fields, "other_user_id")) &&
       LookupId(users, body.fields["other_user_id"]) == LookupRaises)
    ensures r == Failure(UserNotFound) <==>
      PrivateRoomRequested(caller, body) && PresentAndTruthy(Get(body.fields, "other_user_id")) &&
      LookupId(users, body.fields["other_user_id"]) == DoesNotExist
    ensures r == Failure(NotFriends) <==>
      PrivateRoomRequested(caller, body) && PresentAndTruthy(Get(body.fields, "other_user_id")) &&
      var found := LookupId(users, body.fields["other_user_id"]);
      found.Found? && !AreFriends(friendships, caller.value, found.id)
  {
    match body
    case Obj(data) =>
      var roomType := GetOr(data, "room_type", JStr("private"));
      var name := GetOr(data, "name", JStr(""));
      if roomType == JStr("anonymous") then
        var shown := if Truthy(name) then name else JStr("Anonymous Chat");
        Success(NewRoom(Room(PyStr(shown), Anonymous, {}), shown))
      else if caller.None? then Failure(AuthenticationRequired)
      else if roomType == JStr("private") then
        var otherId := Get(data, "other_user_id");
        if !PresentAndTruthy(otherId) then Failure(OtherUserRequired)
        else (match LookupId(users, otherId.value)
          case LookupRaises => Failure(ServerError)
          case DoesNotExist => Failure(UserNotFound)
          case Found(other) =>
            if !AreFriends(friendships, caller.value, other) then Failure(NotFriends)
            else Success(PrivateChat(other)))
      else Success(NewRoom(Room(PyStr(name), Group, {caller.value}), name))
    case _ => Failure(ServerError)
  }

  method CreateChatroom(db: Database, caller: Option<UserId>, body: Inbound) returns (resp: Response)
    modifies db`rooms
    ensures var check := CreateRoomCheck(db.users, db.friendships, caller, body);
      (check.Failure? ==> resp == Error(check.error) && db.rooms == old(db.rooms)) &&
      (check.Success? && check.value.PrivateChat? ==>
         resp == PrivateChatOpened(caller.value, check.value.other) && db.rooms == old(db.rooms)) &&
      (check.Success? && check.value.NewRoom? ==>
         db.rooms == old(db.rooms) + [check.value.room] &&
         resp == RoomCreated(|db.rooms|, check.value.room.roomType, check.value.shownName))
  {
    match CreateRoomCheck(db.users, db.friendships, caller, body)
    case Failure(e) => resp := Error(e);
    case Success(PrivateChat(other)) => resp := PrivateChatOpened(caller.value, other);
    case Success(NewRoom(room, shownName)) =>
      db.rooms := db.rooms + [room];
      resp := RoomCreated(|db.rooms|, room.roomType, shownName);
  }

  // ---------------------------------------------------------------------
  // get_messages

  /** Whether the caller may read a room's history: anonymous rooms are open, others need a participant. */
  predicate MayRead(room: Room, caller: Option<UserId>) {
    room.roomType == Anonymous || (caller.Some? && caller.value in room.participants)
  }

  /** The keys of the room's messages, in table order. */
  function RoomMessageIds(messages: seq<Message>, roomId: RoomId, from: nat): (ids: seq<nat>)
    requires from <= |messages|
    decreases |messages| - from
    ensures forall k :: 0 <= k < |ids| ==> from < ids[k] <= |messages| && messages[ids[k] - 1].chatRoom == roomId
    ensures forall k, l :: 0 <= k < l < |ids| ==> ids[k] < ids[l]
    ensures forall id :: from < id <= |messages| && messages[id - 1].chatRoom == roomId ==> id in ids
  {
    if from == |messages| then []
    else
      var rest := RoomMessageIds(messages, roomId, from + 1);
      if messages[from].chatRoom == roomId then [from + 1] + rest else rest
  }

  /** One entry of `messages_data`. */
  function MessageEntryOf(users: seq<User>, id: nat, m: Message): (e: MessageEntry)
    ensures e.isAnonymous <==> m.anonymousName != []
    ensures e.isAnonymous ==> e.senderName == m.anonymousName
    ensures !e.isAnonymous && m.sender.Some? && HasRow(users, m.sender.value) ==>
      e.senderName == RowAt(users, m.sender.value).username
    ensures !e.isAnonymous && (m.sender.None? || !HasRow(users, m.sender.value)) ==> e.senderName == "Unknown"
    ensures e.id == id && e.content == m.content && e.senderId == m.sender && e.timestamp == m.timestamp
  {
    var senderName :=
      if m.anonymousName != [] then m.anonymousName
      else if m.sender.Some? && HasRow(users, m.sender.value) then RowAt(users, m.sender.value).username
      else "Unknown";
    MessageEntry(id, m.content, senderName, m.sender, m.anonymousName != [], m.timestamp)
  }

  /**
   * `get_messages`: an unknown room is not found; a non-anonymous room is
   * refused unless the caller is one of its participants; otherwise the
   * room's messages, oldest first.
   */
  method GetMessages(rooms: seq<Room>, messages: seq<Message>, users: seq<User>, caller: Option<UserId>, roomId: RoomId)
    returns (resp: Response)
    ensures !HasRow(rooms, roomId) ==> resp == Error(RoomNotFound)
    ensures HasRow(rooms, roomId) && !MayRead(RowAt(rooms, roomId), caller) ==> resp == Error(AccessDenied)
    ensures HasRow(rooms, roomId) && MayRead(RowAt(rooms, roomId), caller) ==>
      var ids := RoomMessageIds(messages, roomId, 0);
      resp.MessageList? && |resp.messages| == |ids| &&
      forall k :: 0 <= k < |ids| ==> resp.messages[k] == MessageEntryOf(users, ids[k], messages[ids[k] - 1])
  {
    if !HasRow(rooms, roomId) {
      return Error(RoomNotFound);
    }
    var room := RowAt(rooms, roomId);
    if room.roomType != Anonymous {
      if caller.None? || caller.value !in room.participants {
        return Error(AccessDenied);
      }
    }
    var ids := RoomMessageIds(messages, roomId, 0);
    var messagesData: seq<MessageEntry> := [];
    for k := 0 to |ids|
      invariant |messagesData| == k
      invariant forall j :: 0 <= j < k ==> messagesData[j] == MessageEntryOf(users, ids[j], messages[ids[j] - 1])
    {
      messagesData := messagesData + [MessageEntryOf(users, ids[k], messages[ids[k] - 1])];
    }
    resp := MessageList(messagesData);
  }

  /**
   * `order_by('timestamp')` agrees with table order whenever timestamps never
   * decrease along the table, as `auto_now_add` stamps do.
   */
  lemma RoomMessagesInTimestampOrder(messages: seq<Message>, roomId: RoomId)
    requires forall i, j :: 0 <= i < j < |messages| ==> messages[i].timestamp <= messages[j].timestamp
    ensures var ids := RoomMessageIds(messages, roomId, 0);
      forall k, l :: 0 <= k < l < |ids| ==> messages[ids[k] - 1].timestamp <= messages[ids[l] - 1].timestamp
  {
  }
}
