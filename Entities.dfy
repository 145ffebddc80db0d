/**
 * The records the fan club app and its mock back end pass around, the
 * ordered key/value table that stands for a JavaScript object whose key
 * order is observable, and the browser's `localStorage` as one shared
 * object with a field per key.
 *
 * A JavaScript `undefined` (a missing property, `{}.id`) is `None`.
 * Timestamps are milliseconds since the epoch, kept as integers.
 */
module Entities {

  datatype Option<+T> = None | Some(value: T)

  /** The reply of a call into an API client, once awaited: the parsed
      body of an ok response, the `error` text of a failed one (`""`
      when the body has none), or an exception thrown by the call. */
  datatype Reply<+T> = Ok(value: T) | Err(error: string) | Threw

  /** The object kept under `current_user`: the `user` part of a login or
      signup reply. */
  datatype SessionUser = SessionUser(id: string, email: string, nickname: string, name: string, phone: string)

  /** The body of a successful login or signup: the token and the user. */
  datatype AuthSession = AuthSession(token: string, user: SessionUser)

  /** `currentUser.id` where `currentUser` is `current_user` parsed, or
      `{}` when the key is absent. */
  function UserIdOf(u: Option<SessionUser>): Option<string> {
    if u.Some? then Some(u.value.id) else None
  }

  /** `currentUser.nickname || currentUser.name`. */
  function UserNameOf(u: Option<SessionUser>): (r: Option<string>)
    ensures r.Some? <==> u.Some?
    ensures u.Some? && u.value.nickname != "" ==> r == Some(u.value.nickname)
    ensures u.Some? && u.value.nickname == "" ==> r == Some(u.value.name)
  {
    if u.None? then None
    else if u.value.nickname != "" then Some(u.value.nickname)
    else Some(u.value.name)
  }

  /** An entry of the users table, keyed by e-mail address. */
  datatype UserRecord = UserRecord(id: string, nickname: string, name: string, phone: string, password: string)

  datatype Fanclub = Fanclub(
    id: string,
    name: string,
    description: string,
    monthlyFee: int,
    purpose: string,
    coverImageUrl: string,
    ownerId: Option<string>,
    ownerName: Option<string>,
    memberCount: int,
    createdAt: int,
    updatedAt: int)

  datatype Post = Post(
    id: string,
    fanclubId: string,
    authorId: Option<string>,
    authorName: Option<string>,
    title: string,
    content: string,
    excerpt: Option<string>,
    featuredImageUrl: Option<string>,
    visibility: string,
    likeCount: int,
    isLiked: bool,
    createdAt: int)

  datatype ChatMessage = ChatMessage(
    id: string,
    userId: Option<string>,
    userName: Option<string>,
    message: string,
    createdAt: int)

  datatype Role = Owner | Member

  /** A row of a club's membership list. */
  datatype Membership = Membership(userId: Option<string>, userName: Option<string>, joinedAt: int, role: Role)

  /** `Math.max(0, n - 1)`: the member count after a leave. */
  function CountAfterLeave(n: int): (r: int)
    ensures r >= 0
    ensures n >= 1 ==> r == n - 1
    ensures n <= 1 ==> r == 0
  {
    if n - 1 > 0 then n - 1 else 0
  }

  /** A JavaScript object used as a dictionary whose iteration order is
      observable: the keys in insertion order and the entries. */
  datatype Table<V> = Table(keys: seq<string>, entries: map<string, V>) {

    /** Every key once, and exactly the keys of the entries. */
    predicate WellFormed() {
      (forall i, j :: 0 <= i < j < |keys| ==> keys[i] != keys[j]) &&
      (forall k :: k in keys ==> k in entries) &&
      (forall k :: k in entries ==> k in keys)
    }

    /** `obj[k] = v`: a new key goes last, an existing key keeps its place. */
    function Put(k: string, v: V): (t: Table<V>)
      requires WellFormed()
      ensures t.WellFormed()
      ensures t.entries == entries[k := v]
      ensures k in entries ==> t.keys == keys
      ensures k !in entries ==> t.keys == keys + [k]
    {
      if k in entries then Table(keys, entries[k := v]) else Table(keys + [k], entries[k := v])
    }
  }

  /** The empty object `{}`. */
  function EmptyTable<V>(): (t: Table<V>)
    ensures t.WellFormed() && t.keys == [] && t.entries == map[]
  {
    Table([], map[])
  }

  /**
   * The browser's `localStorage`, shared by the app and the mock back end:
   * one field per key, holding the parsed JSON value. An absent key is
   * the value its reader falls back to (`'[]'`, `'{}'`, `null`).
   */
  class Storage {
    var authToken: Option<string>                      // auth_token
    var currentUser: Option<SessionUser>               // current_user
    var fanclubsDb: seq<Fanclub>                        // mock_fanclubs_db
    var usersDb: map<string, UserRecord>                // mock_users_db
    var postsDb: map<string, seq<Post>>                 // mock_posts_db
    var chatsDb: map<string, seq<ChatMessage>>          // mock_chats_db
    var membershipsDb: Table<seq<Membership>>           // mock_memberships_db
    var legacyUsers: map<string, UserRecord>            // mock_users

    /** A browser profile where nothing has been stored yet. */
    constructor ()
      ensures authToken == None && currentUser == None
      ensures fanclubsDb == [] && usersDb == map[] && postsDb == map[] && chatsDb == map[]
      ensures membershipsDb == EmptyTable() && legacyUsers == map[]
    {
      authToken := None;
      currentUser := None;
      fanclubsDb := [];
      usersDb := map[];
      postsDb := map[];
      chatsDb := map[];
      membershipsDb := EmptyTable();
      legacyUsers := map[];
    }
  }
}
