/**
 * The in-memory back end `MockSupabaseClient` (public/mock-supabase-client.js):
 * an auth token, the list of fan clubs, the users keyed by e-mail, and per
 * club the posts, the chat messages and the membership rows. Every table
 * is written back to `localStorage` after each change, so the class keeps
 * its fields equal to the storage keys it mirrors (`Valid`).
 *
 * The user an operation acts for is whatever the app stored under
 * `current_user`; `now` is the value of `Date.now()` during the call.
 */
module MockClient {
  import opened Entities
  import opened JsString

  const DemoFanclubId := "demo-fanclub-1"
  const DayMs := 24 * 60 * 60 * 1000

  // The texts of the demo data, kept as named constants.
  const DemoOwnerId := "demo-user-1"
  const DemoOwnerName := "クリエイター太郎"
  const DemoClubName := "クリエイター太郎のアトリエ"
  const DemoClubDescription := "イラスト制作の過程や限定コンテンツを共有するファンクラブです。創作活動を応援してくださる皆様と一緒に、素敵な作品を作っていきたいと思います！"
  const DemoClubPurpose := "イラスト制作活動の支援とファン同士の交流促進"
  const DemoClubCover := "https://via.placeholder.com/1200x400/FF8C9F/white?text=Creative+Studio"
  const DemoPost1Title := "ファンクラブ開設のお知らせ"
  const DemoPost1Content := "この度、ファンクラブを開設いたしました！制作過程の共有や限定コンテンツをお楽しみください。"
  const DemoPost1Excerpt := "ファンクラブ開設のお知らせです"
  const DemoPost1Image := "https://via.placeholder.com/600x300/01D3D9/white?text=Welcome"
  const DemoPost2Title := "新作イラスト制作開始！"
  const DemoPost2Content := "新しいプロジェクト「桜の下で読書する少女」の制作を開始します。制作過程を段階的に公開予定！"
  const DemoPost2Excerpt := "新作制作開始のお知らせ"
  const DemoPost2Image := "https://via.placeholder.com/600x300/FF8C9F/white?text=New+Project"
  const DemoChat1Text := "ファンクラブチャットへようこそ！"
  const DemoChat2Text := "みなさん、よろしくお願いします！"

  function DemoFanclub(now: int): Fanclub {
    Fanclub(DemoFanclubId, DemoClubName, DemoClubDescription, 1200, DemoClubPurpose, DemoClubCover,
            Some(DemoOwnerId), Some(DemoOwnerName), 5, now - 7 * DayMs, now)
  }

  function DemoPosts(now: int): seq<Post> {
    [ Post("demo-post-1", DemoFanclubId, Some(DemoOwnerId), Some(DemoOwnerName),
           DemoPost1Title, DemoPost1Content, Some(DemoPost1Excerpt), Some(DemoPost1Image),
           "public", 3, false, now - 2 * DayMs),
      Post("demo-post-2", DemoFanclubId, Some(DemoOwnerId), Some(DemoOwnerName),
           DemoPost2Title, DemoPost2Content, Some(DemoPost2Excerpt), Some(DemoPost2Image),
           "members", 7, false, now - DayMs) ]
  }

  function DemoChats(now: int): seq<ChatMessage> {
    [ ChatMessage("chat-1", Some("system"), Some("システム"), DemoChat1Text, now - 60 * 60 * 1000),
      ChatMessage("chat-2", Some(DemoOwnerId), Some(DemoOwnerName), DemoChat2Text, now - 30 * 60 * 1000) ]
  }

  /** The three test accounts built into `login` and `signup`. */
  function DefaultUsers(): map<string, UserRecord> {
    map[
      "test@example.com" := UserRecord("test-1", "テストユーザー", "テストユーザー", "", "password"),
      "admin@fanclub.com" := UserRecord("admin-1", "管理者", "管理者", "", "admin123"),
      "user@demo.jp" := UserRecord("demo-1", "デモユーザー", "デモユーザー", "", "demo")
    ]
  }

  /** The account `login(email, password)` accepts, looked up in
      `{ ...defaultUsers, ...stored }`: a stored user shadows a built-in
      one with the same e-mail address. */
  function Authenticate(stored: map<string, UserRecord>, email: string, password: string): (r: Option<UserRecord>)
    ensures email in stored ==>
              (r.Some? <==> stored[email].password == password) && (r.Some? ==> r.value == stored[email])
    ensures email !in stored && email in DefaultUsers() ==>
              (r.Some? <==> DefaultUsers()[email].password == password) &&
              (r.Some? ==> r.value == DefaultUsers()[email])
    ensures email !in stored && email !in DefaultUsers() ==> r.None?
  {
    var all := DefaultUsers() + stored;
    if email in all && all[email].password == password then Some(all[email]) else None
  }

  /** The `user` object of a successful login. */
  function SessionOf(email: string, u: UserRecord): (s: SessionUser)
    ensures s.id == u.id && s.email == email && s.name == u.name && s.phone == u.phone
    ensures s.nickname == (if u.nickname != "" then u.nickname else u.name)
  {
    SessionUser(u.id, email, if u.nickname != "" then u.nickname else u.name, u.name, u.phone)
  }

  /** `clubs.find(f => f.id == id)`, as an index: the first club with that id. */
  function FindIndex(clubs: seq<Fanclub>, id: string): (r: Option<nat>)
    ensures r.Some? ==> r.value < |clubs| && clubs[r.value].id == id
    ensures r.Some? ==> forall j :: 0 <= j < r.value ==> clubs[j].id != id
    ensures r.None? <==> forall j :: 0 <= j < |clubs| ==> clubs[j].id != id
    decreases |clubs|
  {
    if |clubs| == 0 then None
    else if clubs[0].id == id then Some(0)
    else match FindIndex(clubs[1..], id)
      case None => None
      case Some(i) => Some(i + 1)
  }

  /** Appending a club whose id is new makes it the one `find` returns for that id. */
  lemma FindIndexAppendFresh(clubs: seq<Fanclub>, c: Fanclub)
    requires FindIndex(clubs, c.id).None?
    ensures FindIndex(clubs + [c], c.id) == Some(|clubs|)
  {
    var r := FindIndex(clubs + [c], c.id);
    assert (clubs + [c])[|clubs|].id == c.id;
  }

  /** The membership test of the mock: the row belongs to `uid`. */
  predicate IsUsers(m: Membership, uid: Option<string>) {
    m.userId == uid
  }

  /** `rows.some(m => m.user_id === uid)`. */
  function HasMember(rows: seq<Membership>, uid: Option<string>): (b: bool)
    ensures b <==> exists i :: 0 <= i < |rows| && IsUsers(rows[i], uid)
    decreases |rows|
  {
    if |rows| == 0 then false
    else IsUsers(rows[0], uid) || HasMember(rows[1..], uid)
  }

  /** `rows.filter(m => m.user_id !== uid)`: every row of that user goes,
      every other row stays, in the same order. */
  function WithoutUser(rows: seq<Membership>, uid: Option<string>): (r: seq<Membership>)
    ensures forall m {:trigger m in r} :: m in r <==> m in rows && !IsUsers(m, uid)
    ensures |r| <= |rows|
    ensures (forall i :: 0 <= i < |rows| ==> !IsUsers(rows[i], uid)) ==> r == rows
    decreases |rows|
  {
    if |rows| == 0 then []
    else if IsUsers(rows[0], uid) then WithoutUser(rows[1..], uid)
    else [rows[0]] + WithoutUser(rows[1..], uid)
  }

  /** After the filter the user has no row left. */
  lemma WithoutUserLeavesNoRow(rows: seq<Membership>, uid: Option<string>)
    ensures !HasMember(WithoutUser(rows, uid), uid)
  {
    var r := WithoutUser(rows, uid);
    forall i | 0 <= i < |r|
      ensures !IsUsers(r[i], uid)
    {
      assert r[i] in r;
    }
  }

  /** A single row stays exactly when it is not the user's. */
  lemma WithoutUserOne(m: Membership, uid: Option<string>)
    ensures WithoutUser([m], uid) == (if m.userId == uid then [] else [m])
  {
    assert [m][1..] == [];
  }

  lemma {:induction false} WithoutUserAppend(a: seq<Membership>, b: seq<Membership>, uid: Option<string>)
    ensures WithoutUser(a + b, uid) == WithoutUser(a, uid) + WithoutUser(b, uid)
    decreases |a|
  {
    if |a| == 0 {
      assert a + b == b;
    } else {
      var ab := a + b;
      assert ab[0] == a[0] && ab[1..] == a[1..] + b;
      WithoutUserAppend(a[1..], b, uid);
      var rest := WithoutUser(a[1..], uid);
      if IsUsers(a[0], uid) {
        assert WithoutUser(ab, uid) == WithoutUser(ab[1..], uid);
        assert WithoutUser(a, uid) == rest;
      } else {
        calc {
          WithoutUser(ab, uid);
          [a[0]] + WithoutUser(ab[1..], uid);
          [a[0]] + (rest + WithoutUser(b, uid));
          ([a[0]] + rest) + WithoutUser(b, uid);
          WithoutUser(a, uid) + WithoutUser(b, uid);
        }
      }
    }
  }

  /** The rows listed for a club, `[]` when it has no list yet. */
  function RowsOf(t: Table<seq<Membership>>, fanclubId: string): seq<Membership> {
    if fanclubId in t.entries then t.entries[fanclubId] else []
  }

  /** `checkMembershipStatus`: the club has a list and the user is on it. */
  predicate IsMember(t: Table<seq<Membership>>, fanclubId: string, uid: Option<string>) {
    fanclubId in t.entries && HasMember(t.entries[fanclubId], uid)
  }

  /** What one membership entry adds to the joined list: the club `find`
      returns for the key, when the user is on the key's list. */
  function JoinedFrom(key: string, rows: seq<Membership>, clubs: seq<Fanclub>, uid: Option<string>): seq<Fanclub> {
    if HasMember(rows, uid) then
      match FindIndex(clubs, key)
      case Some(i) => [clubs[i]]
      case None => []
    else []
  }

  /** The joined clubs found by visiting `keys` in order. */
  function JoinedOver(keys: seq<string>, entries: map<string, seq<Membership>>, clubs: seq<Fanclub>, uid: Option<string>): seq<Fanclub>
    requires forall k :: k in keys ==> k in entries
    decreases |keys|
  {
    if |keys| == 0 then []
    else
      var last := keys[|keys| - 1];
      JoinedOver(keys[..|keys| - 1], entries, clubs, uid) + JoinedFrom(last, entries[last], clubs, uid)
  }

  /** `getJoinedFanclubs`: the clubs of the memberships the user is on, in
      the key order of the memberships object. */
  function Joined(t: Table<seq<Membership>>, clubs: seq<Fanclub>, uid: Option<string>): seq<Fanclub>
    requires t.WellFormed()
  {
    JoinedOver(t.keys, t.entries, clubs, uid)
  }

  /** Everything listed as joined is a club whose membership list holds the user. */
  lemma {:induction false} JoinedOverSound(keys: seq<string>, entries: map<string, seq<Membership>>, clubs: seq<Fanclub>, uid: Option<string>, c: Fanclub)
    requires forall k :: k in keys ==> k in entries
    requires c in JoinedOver(keys, entries, clubs, uid)
    ensures c.id in keys && HasMember(entries[c.id], uid)
    ensures FindIndex(clubs, c.id).Some? && clubs[FindIndex(clubs, c.id).value] == c
    decreases |keys|
  {
    var last := keys[|keys| - 1];
    var front := keys[..|keys| - 1];
    if c in JoinedOver(front, entries, clubs, uid) {
      JoinedOverSound(front, entries, clubs, uid, c);
    } else {
      assert c in JoinedFrom(last, entries[last], clubs, uid);
    }
  }

  /** Every club whose membership list holds the user is listed as joined. */
  lemma {:induction false} JoinedOverComplete(keys: seq<string>, entries: map<string, seq<Membership>>, clubs: seq<Fanclub>, uid: Option<string>, key: string)
    requires forall k :: k in keys ==> k in entries
    requires key in keys && HasMember(entries[key], uid) && FindIndex(clubs, key).Some?
    ensures clubs[FindIndex(clubs, key).value] in JoinedOver(keys, entries, clubs, uid)
    decreases |keys|
  {
    var last := keys[|keys| - 1];
    var front := keys[..|keys| - 1];
    if key == last {
      assert JoinedFrom(last, entries[last], clubs, uid) == [clubs[FindIndex(clubs, key).value]];
    } else {
      assert key in front by {
        var i :| 0 <= i < |keys| && keys[i] == key;
        assert front[i] == key;
      }
      JoinedOverComplete(front, entries, clubs, uid, key);
    }
  }

  /** `getJoinedFanclubs` and `checkMembershipStatus` agree: the club `find`
      returns for an id is joined exactly when the membership check holds. */
  lemma JoinedIffMember(t: Table<seq<Membership>>, clubs: seq<Fanclub>, uid: Option<string>, i: nat)
    requires t.WellFormed()
    requires i < |clubs| && FindIndex(clubs, clubs[i].id) == Some(i)
    ensures clubs[i] in Joined(t, clubs, uid) <==> IsMember(t, clubs[i].id, uid)
  {
    if clubs[i] in Joined(t, clubs, uid) {
      JoinedOverSound(t.keys, t.entries, clubs, uid, clubs[i]);
    }
    if IsMember(t, clubs[i].id, uid) {
      JoinedOverComplete(t.keys, t.entries, clubs, uid, clubs[i].id);
    }
  }

  /** A club created under a fresh id, with the creator's owner row added,
      is among the creator's joined clubs. */
  lemma CreatedClubIsJoined(t: Table<seq<Membership>>, clubs: seq<Fanclub>, c: Fanclub, row: Membership)
    requires t.WellFormed() && FindIndex(clubs, c.id).None?
    ensures c in Joined(t.Put(c.id, RowsOf(t, c.id) + [row]), clubs + [c], row.userId)
  {
    var t' := t.Put(c.id, RowsOf(t, c.id) + [row]);
    FindIndexAppendFresh(clubs, c);
    assert row in t'.entries[c.id];
    JoinedOverComplete(t'.keys, t'.entries, clubs + [c], row.userId, c.id);
    assert (clubs + [c])[|clubs|] == c;
  }

  /** `fanclub.member_count++` on the club `find` returns, if any. */
  function CountJoined(clubs: seq<Fanclub>, id: string): (r: seq<Fanclub>)
    ensures |r| == |clubs|
    ensures forall j :: 0 <= j < |clubs| && Some(j) != FindIndex(clubs, id) ==> r[j] == clubs[j]
    ensures FindIndex(clubs, id).Some? ==>
              var i := FindIndex(clubs, id).value;
              r[i] == clubs[i].(memberCount := clubs[i].memberCount + 1)
  {
    match FindIndex(clubs, id)
    case Some(i) => clubs[i := clubs[i].(memberCount := clubs[i].memberCount + 1)]
    case None => clubs
  }

  /** `fanclub.member_count = Math.max(0, fanclub.member_count - 1)` on the
      club `find` returns, if any. */
  function CountLeft(clubs: seq<Fanclub>, id: string): (r: seq<Fanclub>)
    ensures |r| == |clubs|
    ensures forall j :: 0 <= j < |clubs| && Some(j) != FindIndex(clubs, id) ==> r[j] == clubs[j]
    ensures FindIndex(clubs, id).Some? ==>
              var i := FindIndex(clubs, id).value;
              r[i] == clubs[i].(memberCount := CountAfterLeave(clubs[i].memberCount))
  {
    match FindIndex(clubs, id)
    case Some(i) => clubs[i := clubs[i].(memberCount := CountAfterLeave(clubs[i].memberCount))]
    case None => clubs
  }

  predicate CountsNonNegative(clubs: seq<Fanclub>) {
    forall j :: 0 <= j < |clubs| ==> clubs[j].memberCount >= 0
  }

  /** Joining and leaving keep every member count non-negative. */
  lemma CountsStayNonNegative(clubs: seq<Fanclub>, id: string)
    requires CountsNonNegative(clubs)
    ensures CountsNonNegative(CountJoined(clubs, id))
    ensures CountsNonNegative(CountLeft(clubs, id))
  {
    var a := CountJoined(clubs, id);
    var b := CountLeft(clubs, id);
    forall j | 0 <= j < |clubs| ensures a[j].memberCount >= 0 && b[j].memberCount >= 0 {
      if Some(j) == FindIndex(clubs, id) {
      }
    }
  }

  /** A leave right after a join gives the club its count back. */
  lemma JoinThenLeaveRestoresCount(clubs: seq<Fanclub>, id: string)
    requires CountsNonNegative(clubs)
    ensures CountLeft(CountJoined(clubs, id), id) == clubs
  {
    var a := CountJoined(clubs, id);
    assert FindIndex(a, id) == FindIndex(clubs, id) by {
      FindIndexSameIds(clubs, a, id);
    }
    var b := CountLeft(a, id);
    assert forall j :: 0 <= j < |clubs| ==> b[j] == clubs[j];
  }

  /** `find` depends on the ids only. */
  lemma {:induction false} FindIndexSameIds(xs: seq<Fanclub>, ys: seq<Fanclub>, id: string)
    requires |xs| == |ys| && forall j :: 0 <= j < |xs| ==> xs[j].id == ys[j].id
    ensures FindIndex(xs, id) == FindIndex(ys, id)
    decreases |xs|
  {
    if |xs| > 0 && xs[0].id != id {
      FindIndexSameIds(xs[1..], ys[1..], id);
    }
  }

  /** The argument of `createFanclub`; `None` is a missing property. */
  datatype FanclubInput = FanclubInput(name: string, description: string, monthlyFee: Option<int>, purpose: string, coverImageUrl: Option<string>)

  /** The argument of `createPost`. */
  datatype PostInput = PostInput(title: string, content: string, excerpt: Option<string>, featuredImageUrl: Option<string>, visibility: Option<string>)

  /** The argument of `signup`. */
  datatype SignupInput = SignupInput(nickname: string, email: string, phone: string, password: string)

  const PlaceholderCoverPrefix := "https://via.placeholder.com/1200x400/01D3D9/white?text="

  /** The club `createFanclub` stores: owned by the stored user, with one
      member; a missing fee is 0 and a missing or empty cover is a
      placeholder image titled with the club's name. */
  function NewFanclub(data: FanclubInput, owner: Option<SessionUser>, now: nat): (c: Fanclub)
    ensures c.id == "fanclub_" + Decimal(now) && c.memberCount == 1
    ensures c.name == data.name && c.description == data.description && c.purpose == data.purpose
    ensures data.monthlyFee.Some? ==> c.monthlyFee == data.monthlyFee.value
    ensures data.monthlyFee.None? ==> c.monthlyFee == 0
    ensures data.coverImageUrl.Some? && data.coverImageUrl.value != "" ==> c.coverImageUrl == data.coverImageUrl.value
    ensures data.coverImageUrl.None? || data.coverImageUrl.value == "" ==> c.coverImageUrl == PlaceholderCoverPrefix + data.name
    ensures c.ownerId == UserIdOf(owner) && c.ownerName == UserNameOf(owner)
    ensures c.createdAt == now && c.updatedAt == now
  {
    Fanclub("fanclub_" + Decimal(now), data.name, data.description,
            if data.monthlyFee.Some? then data.monthlyFee.value else 0,
            data.purpose,
            if data.coverImageUrl.Some? && data.coverImageUrl.value != "" then data.coverImageUrl.value
            else PlaceholderCoverPrefix + data.name,
            UserIdOf(owner), UserNameOf(owner), 1, now, now)
  }

  /** The owner's membership row `createFanclub` adds. */
  function OwnerRow(owner: Option<SessionUser>, now: int): (m: Membership)
    ensures m.userId == UserIdOf(owner) && m.role == Owner && m.joinedAt == now
  {
    Membership(UserIdOf(owner), UserNameOf(owner), now, Owner)
  }

  class MockSupabaseClient {
    var token: Option<string>
    var fanclubs: seq<Fanclub>
    var users: map<string, UserRecord>
    var posts: map<string, seq<Post>>
    var chats: map<string, seq<ChatMessage>>
    var memberships: Table<seq<Membership>>
    const store: Storage

    /** The tables are well formed and equal to what `localStorage` holds. */
    ghost predicate Valid()
      reads this, store
    {
      memberships.WellFormed() &&
      store.fanclubsDb == fanclubs && store.postsDb == posts &&
      store.chatsDb == chats && store.membershipsDb == memberships
    }

    /** `if (!this.token)` fails: no token, or the empty one. */
    predicate HasToken()
      reads this
    {
      token.Some? && token.value != ""
    }

    /** Loads every table from storage, then seeds the demo data. */
    constructor (store: Storage, now: int)
      requires store.membershipsDb.WellFormed()
      modifies store
      ensures Valid() && this.store == store
      ensures token == old(store.authToken) && users == old(store.usersDb)
      ensures memberships == old(store.membershipsDb)
      ensures old(store.fanclubsDb) != [] ==>
                fanclubs == old(store.fanclubsDb) && posts == old(store.postsDb) && chats == old(store.chatsDb)
      ensures old(store.fanclubsDb) == [] ==>
                fanclubs == [DemoFanclub(now)] &&
                posts == old(store.postsDb)[DemoFanclubId := DemoPosts(now)] &&
                chats == old(store.chatsDb)[DemoFanclubId := DemoChats(now)]
      ensures store.authToken == old(store.authToken) && store.currentUser == old(store.currentUser)
      ensures store.usersDb == old(store.usersDb) && store.legacyUsers == old(store.legacyUsers)
    {
      this.store := store;
      token := store.authToken;
      fanclubs := store.fanclubsDb;
      users := store.usersDb;
      posts := store.postsDb;
      chats := store.chatsDb;
      memberships := store.membershipsDb;
      new;
      InitializeDefaultData(now);
    }

    /** When there is no club at all, adds the demo club with its two posts
        and two chat messages; otherwise changes nothing. */
    method InitializeDefaultData(now: int)
      requires Valid()
      modifies this`fanclubs, this`posts, this`chats, store`fanclubsDb, store`postsDb, store`chatsDb
      ensures Valid()
      ensures old(fanclubs) != [] ==> fanclubs == old(fanclubs) && posts == old(posts) && chats == old(chats)
      ensures old(fanclubs) == [] ==>
                fanclubs == [DemoFanclub(now)] &&
                posts == old(posts)[DemoFanclubId := DemoPosts(now)] &&
                chats == old(chats)[DemoFanclubId := DemoChats(now)]
    {
      if |fanclubs| == 0 {
        var clubs := fanclubs + [DemoFanclub(now)];
        var ps := posts[DemoFanclubId := DemoPosts(now)];
        var cs := chats[DemoFanclubId := DemoChats(now)];
        fanclubs, posts, chats := clubs, ps, cs;
        store.fanclubsDb, store.postsDb, store.chatsDb := clubs, ps, cs;
      }
    }

    /** Keeps the token; stores it under `auth_token` when non-empty and
        removes the key otherwise. */
    method SetToken(t: Option<string>)
      modifies this`token, store`authToken
      ensures token == t
      ensures store.authToken == (if t.Some? && t.value != "" then t else None)
    {
      token := t;
      if t.Some? && t.value != "" {
        store.authToken := t;
      } else {
        store.authToken := None;
      }
    }

    /** Merges the stored users in, then accepts the password of the
        account `Authenticate` finds; only a success sets the token. */
    method Login(email: string, password: string, now: nat) returns (r: Reply<AuthSession>)
      requires Valid()
      modifies this`users, this`token, store`authToken
      ensures Valid()
      ensures users == old(users) + old(store.usersDb)
      ensures r.Ok? <==> Authenticate(users, email, password).Some?
      ensures r.Ok? ==>
                r.value.token == "mock_token_" + Decimal(now) &&
                r.value.user == SessionOf(email, Authenticate(users, email, password).value) &&
                token == Some(r.value.token) && store.authToken == token
      ensures !r.Ok? ==>
                r == Err("メールアドレスまたはパスワードが間違っています") &&
                token == old(token) && store.authToken == old(store.authToken)
    {
      users := users + store.usersDb;
      var account := Authenticate(users, email, password);
      if account.Some? {
        var t := "mock_token_" + Decimal(now);
        SetToken(Some(t));
        r := Ok(AuthSession(t, SessionOf(email, account.value)));
      } else {
        r := Err("メールアドレスまたはパスワードが間違っています");
      }
    }

    /** Refuses an e-mail address that is stored or built in; otherwise
        stores the new user under it and logs in. */
    method Signup(input: SignupInput, now: nat) returns (r: Reply<AuthSession>)
      requires Valid()
      modifies this`users, this`token, store`authToken, store`usersDb
      ensures Valid()
      ensures var merged := old(users) + old(store.usersDb);
              if input.email in merged || input.email in DefaultUsers() then
                r == Err("このメールアドレスは既に登録されています") && users == merged &&
                store.usersDb == old(store.usersDb) &&
                token == old(token) && store.authToken == old(store.authToken)
              else
                var u := UserRecord("user_" + Decimal(now), input.nickname, input.nickname, input.phone, input.password);
                users == merged[input.email := u] && store.usersDb == users &&
                r == Ok(AuthSession("mock_token_" + Decimal(now),
                                    SessionUser(u.id, input.email, input.nickname, input.nickname, input.phone))) &&
                token == Some(r.value.token) && store.authToken == token
    {
      users := users + store.usersDb;
      if input.email in users || input.email in DefaultUsers() {
        r := Err("このメールアドレスは既に登録されています");
        return;
      }
      var u := UserRecord("user_" + Decimal(now), input.nickname, input.nickname, input.phone, input.password);
      users := users[input.email := u];
      store.usersDb := users;
      var t := "mock_token_" + Decimal(now);
      SetToken(Some(t));
      r := Ok(AuthSession(t, SessionUser(u.id, input.email, input.nickname, input.nickname, input.phone)));
    }

    /** `getCurrentUser`: the stored `current_user` while a token is held. */
    method GetCurrentUser() returns (u: Option<SessionUser>)
      ensures !HasToken() ==> u.None?
      ensures HasToken() ==> u == store.currentUser
    {
      if !HasToken() {
        u := None;
      } else {
        u := store.currentUser;
      }
    }

    /** `getFanclubs` re-reads the list from storage, which under `Valid`
        is the list already held. */
    method GetFanclubs() returns (r: seq<Fanclub>)
      requires Valid()
      modifies this`fanclubs
      ensures Valid() && fanclubs == old(fanclubs) && r == fanclubs
    {
      fanclubs := store.fanclubsDb;
      r := fanclubs;
    }

    /** `getFanclub(id)`: the first club with that id, or a 404 error. */
    method GetFanclub(id: string) returns (r: Reply<Fanclub>)
      ensures r.Ok? <==> exists j :: 0 <= j < |fanclubs| && fanclubs[j].id == id
      ensures r.Ok? ==> exists i :: 0 <= i < |fanclubs| && fanclubs[i] == r.value && r.value.id == id &&
                                    forall j :: 0 <= j < i ==> fanclubs[j].id != id
      ensures !r.Ok? ==> r == Err("ファンクラブが見つかりません")
    {
      var i := FindIndex(fanclubs, id);
      if i.Some? {
        r := Ok(fanclubs[i.value]);
      } else {
        r := Err("ファンクラブが見つかりません");
      }
    }

    /** Without a token, refuses and changes nothing. With one, appends one
        club owned by the stored user with one member, gives it empty post
        and chat lists and adds the owner's membership row. */
    method CreateFanclub(data: FanclubInput, now: nat) returns (r: Reply<Fanclub>)
      requires Valid()
      modifies this`fanclubs, this`posts, this`chats, this`memberships
      modifies store`fanclubsDb, store`postsDb, store`chatsDb, store`membershipsDb
      ensures Valid()
      ensures !HasToken() ==>
                r == Err("Authentication required") && fanclubs == old(fanclubs) && posts == old(posts) &&
                chats == old(chats) && memberships == old(memberships)
      ensures HasToken() ==>
                r == Ok(NewFanclub(data, store.currentUser, now)) &&
                fanclubs == old(fanclubs) + [r.value] &&
                posts == old(posts)[r.value.id := []] && chats == old(chats)[r.value.id := []] &&
                memberships == old(memberships).Put(r.value.id,
                  RowsOf(old(memberships), r.value.id) + [OwnerRow(store.currentUser, now)])
      ensures HasToken() && FindIndex(old(fanclubs), "fanclub_" + Decimal(now)).None? ==>
                r.value in Joined(memberships, fanclubs, UserIdOf(store.currentUser))
      ensures HasToken() && "fanclub_" + Decimal(now) !in old(memberships.entries) ==>
                memberships.entries[r.value.id] == [OwnerRow(store.currentUser, now)]
    {
      if !HasToken() {
        r := Err("Authentication required");
        return;
      }
      var cu := store.currentUser;
      var c := NewFanclub(data, cu, now);
      var row := OwnerRow(cu, now);
      assert c.id == "fanclub_" + Decimal(now) && row.userId == UserIdOf(cu);
      if FindIndex(fanclubs, c.id).None? {
        CreatedClubIsJoined(memberships, fanclubs, c, row);
      }
      StoreNewFanclub(c, row);
      r := Ok(c);
    }

    /** The writes of `createFanclub`: the club is appended, its posts and
        chat start empty and the owner's row joins its membership list. */
    method StoreNewFanclub(c: Fanclub, row: Membership)
      requires Valid()
      modifies this`fanclubs, this`posts, this`chats, this`memberships
      modifies store`fanclubsDb, store`postsDb, store`chatsDb, store`membershipsDb
      ensures Valid()
      ensures fanclubs == old(fanclubs) + [c]
      ensures posts == old(posts)[c.id := []] && chats == old(chats)[c.id := []]
      ensures memberships == old(memberships).Put(c.id, RowsOf(old(memberships), c.id) + [row])
      ensures c.id !in old(memberships.entries) ==> memberships.entries[c.id] == [row]
    {
      var table := memberships.Put(c.id, RowsOf(memberships, c.id) + [row]);
      fanclubs := fanclubs + [c];
      posts := posts[c.id := []];
      chats := chats[c.id := []];
      memberships := table;
      store.fanclubsDb := fanclubs;
      store.postsDb := posts;
      store.chatsDb := chats;
      store.membershipsDb := table;
    }

    /** Appends a post by the stored user to the club's list (creating the
        list if needed); there is no token check. */
    method CreatePost(fanclubId: string, data: PostInput, now: nat) returns (p: Post)
      requires Valid()
      modifies this`posts, store`postsDb
      ensures Valid()
      ensures p.id == "post_" + Decimal(now) && p.fanclubId == fanclubId
      ensures p.authorId == UserIdOf(store.currentUser) && p.authorName == UserNameOf(store.currentUser)
      ensures p.title == data.title && p.content == data.content && p.excerpt == data.excerpt
      ensures p.featuredImageUrl == data.featuredImageUrl
      ensures p.visibility == (if data.visibility.Some? && data.visibility.value != "" then data.visibility.value else "public")
      ensures p.likeCount == 0 && !p.isLiked && p.createdAt == now
      ensures posts == old(posts)[fanclubId := (if fanclubId in old(posts) then old(posts)[fanclubId] else []) + [p]]
    {
      var cu := store.currentUser;
      p := Post("post_" + Decimal(now), fanclubId, UserIdOf(cu), UserNameOf(cu), data.title, data.content,
                data.excerpt, data.featuredImageUrl,
                if data.visibility.Some? && data.visibility.value != "" then data.visibility.value else "public",
                0, false, now);
      var list := if fanclubId in posts then posts[fanclubId] else [];
      posts := posts[fanclubId := list + [p]];
      store.postsDb := posts;
    }

    /** `getPosts`: the club's posts in posting order, `[]` when it has none. */
    method GetPosts(fanclubId: string) returns (r: seq<Post>)
      ensures fanclubId in posts ==> r == posts[fanclubId]
      ensures fanclubId !in posts ==> r == []
    {
      r := if fanclubId in posts then posts[fanclubId] else [];
    }

    /** Appends a message by the stored user to the club's chat (creating
        the list if needed); the reply is always ok. */
    method SendChatMessage(fanclubId: string, message: string, now: nat)
      requires Valid()
      modifies this`chats, store`chatsDb
      ensures Valid()
      ensures chats == old(chats)[fanclubId :=
                (if fanclubId in old(chats) then old(chats)[fanclubId] else []) +
                [ChatMessage("msg_" + Decimal(now), UserIdOf(store.currentUser), UserNameOf(store.currentUser), message, now)]]
    {
      var cu := store.currentUser;
      var m := ChatMessage("msg_" + Decimal(now), UserIdOf(cu), UserNameOf(cu), message, now);
      var list := if fanclubId in chats then chats[fanclubId] else [];
      chats := chats[fanclubId := list + [m]];
      store.chatsDb := chats;
    }

    /** `getChatMessages`: the club's messages in sending order, `[]` when none. */
    method GetChatMessages(fanclubId: string) returns (r: seq<ChatMessage>)
      ensures fanclubId in chats ==> r == chats[fanclubId]
      ensures fanclubId !in chats ==> r == []
    {
      r := if fanclubId in chats then chats[fanclubId] else [];
    }

    /** Refuses a user already on the club's list and changes nothing.
        Otherwise appends a `member` row and, when the club exists, adds
        exactly one to its member count; no other club changes. */
    method JoinFanclub(fanclubId: string, now: int) returns (r: Reply<string>)
      requires Valid()
      modifies this`fanclubs, this`memberships, store`fanclubsDb, store`membershipsDb
      ensures Valid()
      ensures var uid := UserIdOf(store.currentUser);
              var rows := RowsOf(old(memberships), fanclubId);
              if HasMember(rows, uid) then
                r == Err("既にメンバーです") && memberships == old(memberships) && fanclubs == old(fanclubs)
              else
                r == Ok("ファンクラブに参加しました！") &&
                memberships == old(memberships).Put(fanclubId,
                  rows + [Membership(uid, UserNameOf(store.currentUser), now, Member)]) &&
                fanclubs == CountJoined(old(fanclubs), fanclubId)
      ensures IsMember(memberships, fanclubId, UserIdOf(store.currentUser))
    {
      var cu := store.currentUser;
      var rows := RowsOf(memberships, fanclubId);
      if HasMember(rows, UserIdOf(cu)) {
        r := Err("既にメンバーです");
        return;
      }
      var row := Membership(UserIdOf(cu), UserNameOf(cu), now, Member);
      memberships := memberships.Put(fanclubId, rows + [row]);
      store.membershipsDb := memberships;
      assert memberships.entries[fanclubId][|rows|] == row;
      var i := FindIndex(fanclubs, fanclubId);
      if i.Some? {
        var c := fanclubs[i.value];
        fanclubs := fanclubs[i.value := c.(memberCount := c.memberCount + 1)];
        store.fanclubsDb := fanclubs;
      }
      r := Ok("ファンクラブに参加しました！");
    }

    /** Removes every row of the stored user from the club's list (other
        users' rows stay) and lowers the club's member count by one, not
        below zero, whether or not a row was removed. Always succeeds. */
    method LeaveFanclub(fanclubId: string) returns (r: Reply<string>)
      requires Valid()
      modifies this`fanclubs, this`memberships, store`fanclubsDb, store`membershipsDb
      ensures Valid()
      ensures r == Ok("ファンクラブから退会しました")
      ensures fanclubId in old(memberships.entries) ==>
                memberships == old(memberships).Put(fanclubId,
                  WithoutUser(old(memberships.entries[fanclubId]), UserIdOf(store.currentUser)))
      ensures fanclubId !in old(memberships.entries) ==> memberships == old(memberships)
      ensures fanclubs == CountLeft(old(fanclubs), fanclubId)
      ensures !IsMember(memberships, fanclubId, UserIdOf(store.currentUser))
    {
      var uid := UserIdOf(store.currentUser);
      if fanclubId in memberships.entries {
        WithoutUserLeavesNoRow(memberships.entries[fanclubId], uid);
        memberships := memberships.Put(fanclubId, WithoutUser(memberships.entries[fanclubId], uid));
        store.membershipsDb := memberships;
      }
      var i := FindIndex(fanclubs, fanclubId);
      if i.Some? {
        var c := fanclubs[i.value];
        fanclubs := fanclubs[i.value := c.(memberCount := CountAfterLeave(c.memberCount))];
        store.fanclubsDb := fanclubs;
      }
      r := Ok("ファンクラブから退会しました");
    }

    /** Visits the membership lists in key order and collects the club of
        every list that holds the stored user. */
    method GetJoinedFanclubs() returns (r: seq<Fanclub>)
      requires Valid()
      ensures r == Joined(memberships, fanclubs, UserIdOf(store.currentUser))
    {
      var uid := UserIdOf(store.currentUser);
      var keys := memberships.keys;
      r := [];
      var k := 0;
      while k < |keys|
        invariant 0 <= k <= |keys|
        invariant r == JoinedOver(keys[..k], memberships.entries, fanclubs, uid)
      {
        var key := keys[k];
        var members := memberships.entries[key];
        if HasMember(members, uid) {
          var i := FindIndex(fanclubs, key);
          if i.Some? {
            r := r + [fanclubs[i.value]];
          }
        }
        assert keys[..k + 1][..k] == keys[..k];
        k := k + 1;
      }
      assert keys[..k] == keys;
    }

    /** `checkMembershipStatus`: false when the club has no list, otherwise
        whether some row of the list is the stored user's. */
    method CheckMembershipStatus(fanclubId: string) returns (b: bool)
      ensures b <==> fanclubId in memberships.entries &&
                     exists m :: m in memberships.entries[fanclubId] && m.userId == UserIdOf(store.currentUser)
    {
      if fanclubId !in memberships.entries {
        return false;
      }
      b := HasMember(memberships.entries[fanclubId], UserIdOf(store.currentUser));
    }
  }
}
