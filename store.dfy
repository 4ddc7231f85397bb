/**
 * The persisted tables the Django handlers read and write, as sequences.
 * Row `i` of a table has primary key `i + 1`: the tables only grow, as
 * auto-increment keys without deletions do.  `Database` is the one mutable
 * store the HTTP views and the socket consumer share.
 */
module Store {
  import opened Common
  import opened Json

  type UserId = nat
  type RoomId = nat

  datatype User = User(username: string, email: string)

  datatype RoomType = Anonymous | Private | Group

  datatype Room = Room(name: string, roomType: RoomType, participants: set<UserId>)

  datatype Message = Message(
    chatRoom: RoomId,
    content: string,
    sender: Option<UserId>,
    anonymousName: string,
    timestamp: int)

  datatype RequestStatus = Pending | Accepted | Rejected

  datatype FriendRequest = FriendRequest(sender: UserId, receiver: UserId, status: RequestStatus)

  datatype Friendship = Friendship(user1: UserId, user2: UserId)

  /** Whether a table has a row with primary key `id`. */
  predicate HasRow<T>(table: seq<T>, id: int) {
    1 <= id <= |table|
  }

  /** The row with primary key `id`. */
  function RowAt<T>(table: seq<T>, id: int): T
    requires HasRow(table, id)
  {
    table[id - 1]
  }

  /** The three outcomes of `Model.objects.get(id=v)`. */
  datatype Lookup = Found(id: nat) | DoesNotExist | LookupRaises

  function LookupId<T>(table: seq<T>, v: Json): (r: Lookup)
    ensures r.Found? <==> AsKey(v).Key? && HasRow(table, AsKey(v).k)
    ensures r.Found? ==> r.id == AsKey(v).k && HasRow(table, r.id)
    ensures r.DoesNotExist? <==> AsKey(v).NullKey? || (AsKey(v).Key? && !HasRow(table, AsKey(v).k))
    ensures r.LookupRaises? <==> AsKey(v).InvalidKey?
  {
    match AsKey(v)
    case Key(k) => if HasRow(table, k) then Found(k) else DoesNotExist
    case NullKey => DoesNotExist
    case InvalidKey => LookupRaises
  }

  /** The friendship row `f` links `a` and `b`, in either column order. */
  predicate Links(f: Friendship, a: UserId, b: UserId) {
    (f.user1 == a && f.user2 == b) || (f.user1 == b && f.user2 == a)
  }

  /** `Friendship.are_friends(a, b)`: some friendship row links the two users. */
  predicate AreFriends(fs: seq<Friendship>, a: UserId, b: UserId) {
    exists i :: 0 <= i < |fs| && Links(fs[i], a, b)
  }

  /** The ids `Friendship.get_friends(u)` yields: the other side of every row naming `u`. */
  function FriendIds(fs: seq<Friendship>, u: UserId): (r: set<UserId>)
    ensures forall v :: v in r <==> AreFriends(fs, u, v)
  {
    var r := set i | 0 <= i < |fs| && fs[i].user1 == u :: fs[i].user2;
    var l := set i | 0 <= i < |fs| && fs[i].user2 == u :: fs[i].user1;
    assert forall v :: AreFriends(fs, u, v) ==> v in r + l by {
      forall v | AreFriends(fs, u, v) ensures v in r + l {
        var i :| 0 <= i < |fs| && Links(fs[i], u, v);
        if fs[i].user1 == u && fs[i].user2 == v { assert v in r; } else { assert v in l; }
      }
    }
    r + l
  }

  /**
   * The user a bearer token identifies: the token's (uninterpreted) decoding
   * names a user id, and that user must exist.  An empty or absent token
   * identifies nobody, as `if not token: return None` does.
   */
  function UserFromToken(tokens: map<string, UserId>, users: seq<User>, token: Option<string>): (r: Option<UserId>)
    ensures r.Some? ==> token.Some? && token.value != [] && HasRow(users, r.value)
    ensures r.Some? <==> token.Some? && token.value in tokens && token.value != [] && HasRow(users, tokens[token.value])
    ensures r.Some? ==> r.value == tokens[token.value]
  {
    if token.None? || token.value == [] then None
    else if token.value in tokens && HasRow(users, tokens[token.value]) then Some(tokens[token.value])
    else None
  }

  class Database {
    var users: seq<User>
    var rooms: seq<Room>
    var messages: seq<Message>
    var requests: seq<FriendRequest>
    var friendships: seq<Friendship>

    constructor (users: seq<User>, rooms: seq<Room>, messages: seq<Message>,
                 requests: seq<FriendRequest>, friendships: seq<Friendship>)
      ensures this.users == users && this.rooms == rooms && this.messages == messages
      ensures this.requests == requests && this.friendships == friendships
    {
      this.users := users;
      this.rooms := rooms;
      this.messages := messages;
      this.requests := requests;
      this.friendships := friendships;
    }
  }
}
