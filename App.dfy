/**
 * The stateful part of `FanClubApp` (public/script.js, with the methods
 * public/fanclub-functions.js mixes in): the logged-in user, the token,
 * the club being shown, and the bits of the page the handlers change.
 *
 * The app talks to its API client by awaiting calls; each handler takes
 * the awaited reply of the call it makes as a parameter (`Reply`), and
 * returns the request it made (`None` when a check stopped it first) and
 * the toast it showed.
 */
module App {
  import opened Entities
  import opened JsString
  import MockClient
  import Routing

  datatype ToastKind = Success | Error | Warning
  datatype Toast = Toast(message: string, kind: ToastKind)

  /** `text || fallback`. */
  function OrElse(text: string, fallback: string): (r: string)
    ensures text != "" ==> r == text
    ensures text == "" ==> r == fallback
  {
    if text != "" then text else fallback
  }

  const FillAllFields := "すべてのフィールドを入力してください"
  const PasswordsDiffer := "新しいパスワードが一致しません"
  const PasswordTooShort := "パスワードは6文字以上で入力してください"
  const WrongCurrentPassword := "現在のパスワードが間違っています"
  const PasswordChanged := "パスワードが変更されました"
  const PasswordChangeFailed := "パスワード変更に失敗しました"
  const MinPasswordLength := 6

  /** The form checks of `handlePasswordChange`, in the order they are
      made; `None` when the form passes them all. */
  function PasswordFormError(current: string, newPassword: string, confirm: string): (e: Option<string>)
    ensures e.None? <==> current != "" && newPassword != "" && confirm != "" && newPassword == confirm && |newPassword| >= MinPasswordLength
    ensures current == "" || newPassword == "" || confirm == "" ==> e == Some(FillAllFields)
    ensures current != "" && newPassword != "" && confirm != "" && newPassword != confirm ==> e == Some(PasswordsDiffer)
    ensures current != "" && newPassword == confirm && 0 < |newPassword| < MinPasswordLength ==> e == Some(PasswordTooShort)
  {
    if current == "" || newPassword == "" || confirm == "" then Some(FillAllFields)
    else if newPassword != confirm then Some(PasswordsDiffer)
    else if |newPassword| < MinPasswordLength then Some(PasswordTooShort)
    else None
  }

  /** Replaces the password of the user stored under `email` when
      `current` is that user's password; `None` when there is no such user
      or the password is wrong. Nothing else in the table changes. */
  function ChangeStoredPassword(users: map<string, UserRecord>, email: string, current: string, newPassword: string): (r: Option<map<string, UserRecord>>)
    ensures r.Some? <==> email in users && users[email].password == current
    ensures r.Some? ==> r.value.Keys == users.Keys && r.value[email] == users[email].(password := newPassword)
    ensures r.Some? ==> forall e :: e in users && e != email ==> r.value[e] == users[e]
  {
    if email in users && users[email].password == current
    then Some(users[email := users[email].(password := newPassword)])
    else None
  }

  class FanClubApp {
    var currentUser: Option<SessionUser>
    var token: Option<string>
    var currentFanclub: Option<Fanclub>
    /** The header shows the logged-in state (the last `updateAuthUI`). */
    var authUi: bool
    /** `location.hash` without the `#`. */
    var hash: string
    var postModalOpen: bool
    /** The text of the chat input box. */
    var chatInput: string
    /** What the last `handleRoute` did (`NoAction` before the first). */
    var lastAction: Routing.Action
    /** The auth dialog is shown (`#authModal` has the class `show`). */
    var authOpen: bool
    const store: Storage

    /** The header never shows a session without a user. */
    ghost predicate Valid()
      reads this
    {
      authUi ==> currentUser.Some?
    }

    /** The app as the constructor leaves it: nobody logged in, the token
        taken from the client (which read it from storage), and the hash of
        the loaded page routed once by `setupRouting`, while nobody is
        logged in yet. The constructor then calls `init`, whose synchronous
        start hides the auth dialog again, so a hash that opens it (`login`,
        `signup`, `profile`) leaves it closed once the page has loaded. */
    constructor (store: Storage, hash: string)
      ensures Valid() && this.store == store
      ensures currentUser.None? && currentFanclub.None? && !authUi
      ensures token == store.authToken
      ensures !postModalOpen && chatInput == ""
      ensures hash == "" ==> this.hash == "" && lastAction == Routing.NoAction
      ensures hash != "" ==>
                var d := Routing.Route(hash, false);
                lastAction == d.action && this.hash == (if d.clearHash then "" else hash)
      ensures lastAction != Routing.ShowPage(Routing.MyPage)
      ensures hash == "profile" ==> this.hash == "" && lastAction == Routing.OpenAuth(Routing.LoginTab)
      ensures !authOpen
    {
      this.store := store;
      currentUser := None;
      currentFanclub := None;
      token := store.authToken;
      authUi := false;
      this.hash := hash;
      postModalOpen := false;
      chatInput := "";
      lastAction := Routing.NoAction;
      authOpen := false;
      new;
      RouteOnLoad();
      CloseAuthModal();
    }

    /** `setupRouting`'s first call: a non-empty hash is routed while
        nobody is logged in, so the page loads on the top page, an auth
        tab or a club, never on My Page. */
    method RouteOnLoad()
      requires currentUser.None? && lastAction == Routing.NoAction && !authOpen
      modifies this`hash, this`lastAction, this`authOpen
      ensures authOpen <==> lastAction.OpenAuth?
      ensures old(hash) == "" ==> hash == "" && lastAction == Routing.NoAction
      ensures old(hash) != "" ==>
                var d := Routing.Route(old(hash), false);
                lastAction == d.action && hash == (if d.clearHash then "" else old(hash))
      ensures lastAction != Routing.ShowPage(Routing.MyPage)
      ensures old(hash) == "profile" ==> hash == "" && lastAction == Routing.OpenAuth(Routing.LoginTab)
    {
      if hash != "" {
        HandleRoute();
      }
      Routing.ProfileRoute(false);
    }

    /** `handleRoute` on the current hash, with the login state of the
        moment: records what the route does, opens the auth dialog for an
        auth tab (no other route closes it) and clears the hash when the
        route says so. */
    method HandleRoute()
      modifies this`hash, this`lastAction, this`authOpen
      ensures var d := Routing.Route(old(hash), currentUser.Some?);
              lastAction == d.action && hash == (if d.clearHash then "" else old(hash)) &&
              authOpen == (d.action.OpenAuth? || old(authOpen))
    {
      var d := Routing.Route(hash, currentUser.Some?);
      lastAction := d.action;
      if d.action.OpenAuth? {
        authOpen := true;
      }
      if d.clearHash {
        hash := "";
      }
    }

    /** `closeAuthModal`, and the same class removal at the start of
        `init`: the auth dialog is hidden. */
    method CloseAuthModal()
      modifies this`authOpen
      ensures !authOpen
    {
      authOpen := false;
    }

    predicate HasToken()
      reads this
    {
      token.Some? && token.value != ""
    }

    /** The session restore of `init`, given what `getCurrentUser` gave:
        `Ok(user)`, `Err(_)` for `null`, or `Threw`. A saved user is shown
        at once and replaced by the one the server confirms; without a
        saved user, a token the server does not confirm is dropped together
        with the stored user. The app's own `token` is left as it was. */
    method Init(check: Reply<SessionUser>)
      requires Valid()
      modifies this`currentUser, this`authUi, store`authToken, store`currentUser
      ensures Valid() && token == old(token)
      ensures !HasToken() ==>
                !authUi && currentUser == old(currentUser) &&
                store.authToken == old(store.authToken) && store.currentUser == old(store.currentUser)
      ensures HasToken() && check.Ok? ==>
                currentUser == Some(check.value) && store.currentUser == currentUser && authUi &&
                store.authToken == old(store.authToken)
      ensures HasToken() && old(store.currentUser).Some? && check.Err? ==>
                currentUser == old(store.currentUser) && authUi &&
                store.currentUser == old(store.currentUser) && store.authToken == old(store.authToken)
      ensures HasToken() && old(store.currentUser).Some? && check.Threw? ==>
                currentUser == old(store.currentUser) && !authUi &&
                store.currentUser.None? && store.authToken.None?
      ensures HasToken() && old(store.currentUser).None? && !check.Ok? ==>
                currentUser == old(currentUser) && !authUi &&
                store.currentUser.None? && store.authToken.None?
      ensures HasToken() && store.currentUser.Some? ==> currentUser == store.currentUser
    {
      if !HasToken() {
        authUi := false;
        return;
      }
      var saved := store.currentUser;
      if saved.Some? {
        currentUser := saved;
        authUi := true;
        match check {
          case Ok(u) =>
            currentUser := Some(u);
            store.currentUser := currentUser;
          case Err(_) =>
          case Threw =>
            store.authToken := None;
            store.currentUser := None;
            authUi := false;
        }
      } else {
        match check {
          case Ok(u) =>
            currentUser := Some(u);
            store.currentUser := currentUser;
            authUi := true;
          case _ =>
            store.authToken := None;
            store.currentUser := None;
            authUi := false;
        }
      }
    }

    /** Forgets the user and the token, in the app and in storage. */
    method Logout() returns (toast: Toast)
      modifies this`currentUser, this`token, this`authUi, store`authToken, store`currentUser
      ensures Valid()
      ensures currentUser.None? && token.None? && !authUi
      ensures store.authToken.None? && store.currentUser.None?
      ensures toast == Toast("ログアウトしました", Success)
    {
      currentUser := None;
      token := None;
      store.authToken := None;
      store.currentUser := None;
      authUi := false;
      toast := Toast("ログアウトしました", Success);
    }

    /** Takes the token and the user of a successful login, stores the
        user and moves to `#profile`, which then shows the member page. */
    method HandleLogin(email: string, password: string, reply: Reply<AuthSession>) returns (called: bool, toast: Toast)
      requires Valid()
      modifies this`currentUser, this`token, this`authUi, this`hash, this`authOpen, store`currentUser
      ensures Valid()
      ensures called <==> email != "" && password != ""
      ensures !called ==> toast == Toast("メールアドレスとパスワードを入力してください", Error)
      ensures called && reply.Ok? ==>
                token == Some(reply.value.token) && currentUser == Some(reply.value.user) &&
                store.currentUser == currentUser && authUi && !authOpen && hash == "profile" &&
                toast == Toast("ログインしました", Success) &&
                Routing.Route(hash, currentUser.Some?).action == Routing.ShowPage(Routing.MyPage)
      ensures called && reply.Err? ==> toast == Toast(OrElse(reply.error, "メールアドレスまたはパスワードが間違っています"), Error)
      ensures called && reply.Threw? ==> toast == Toast("ログインに失敗しました", Error)
      ensures !(called && reply.Ok?) ==>
                token == old(token) && currentUser == old(currentUser) && authUi == old(authUi) &&
                authOpen == old(authOpen) && hash == old(hash) && store.currentUser == old(store.currentUser)
    {
      if email == "" || password == "" {
        return false, Toast("メールアドレスとパスワードを入力してください", Error);
      }
      called := true;
      match reply {
        case Ok(session) =>
          token := Some(session.token);
          currentUser := Some(session.user);
          store.currentUser := currentUser;
          authUi := true;
          CloseAuthModal();
          hash := "profile";
          toast := Toast("ログインしました", Success);
          Routing.ProfileRoute(true);
        case Err(e) =>
          toast := Toast(OrElse(e, "メールアドレスまたはパスワードが間違っています"), Error);
        case Threw =>
          toast := Toast("ログインに失敗しました", Error);
      }
    }

    /** Sends the sign-up form once nickname, e-mail and password are
        filled in (the phone may be empty); a success logs the new user in
        like `handleLogin`. */
    method HandleSignup(nickname: string, email: string, phone: string, password: string, reply: Reply<AuthSession>)
      returns (sent: Option<MockClient.SignupInput>, toast: Toast)
      requires Valid()
      modifies this`currentUser, this`token, this`authUi, this`hash, this`authOpen, store`currentUser
      ensures Valid()
      ensures sent.Some? <==> nickname != "" && email != "" && password != ""
      ensures sent.Some? ==> sent.value == MockClient.SignupInput(nickname, email, phone, password)
      ensures sent.None? ==> toast == Toast("必須項目を入力してください", Error)
      ensures sent.Some? && reply.Ok? ==>
                token == Some(reply.value.token) && currentUser == Some(reply.value.user) &&
                store.currentUser == currentUser && authUi && !authOpen && hash == "profile" &&
                toast == Toast("アカウントが作成されました", Success)
      ensures sent.Some? && reply.Err? ==> toast == Toast(OrElse(reply.error, "アカウント作成に失敗しました"), Error)
      ensures sent.Some? && reply.Threw? ==> toast == Toast("アカウント作成に失敗しました", Error)
      ensures !(sent.Some? && reply.Ok?) ==>
                token == old(token) && currentUser == old(currentUser) && authUi == old(authUi) &&
                authOpen == old(authOpen) && hash == old(hash) && store.currentUser == old(store.currentUser)
    {
      if nickname == "" || email == "" || password == "" {
        return None, Toast("必須項目を入力してください", Error);
      }
      sent := Some(MockClient.SignupInput(nickname, email, phone, password));
      match reply {
        case Ok(session) =>
          token := Some(session.token);
          currentUser := Some(session.user);
          store.currentUser := currentUser;
          authUi := true;
          CloseAuthModal();
          hash := "profile";
          toast := Toast("アカウントが作成されました", Success);
        case Err(e) =>
          toast := Toast(OrElse(e, "アカウント作成に失敗しました"), Error);
        case Threw =>
          toast := Toast("アカウント作成に失敗しました", Error);
      }
    }

    /** `handlePasswordChange` as written: after the form checks it looks
        the user up in, and writes the new password to, the `mock_users`
        storage key, a key that neither login nor signup reads or writes.
        Without a user, reading `currentUser.email` throws and the change
        fails. Only a success writes storage. */
    method HandlePasswordChange(current: string, newPassword: string, confirm: string) returns (toast: Toast)
      modifies store`legacyUsers
      ensures PasswordFormError(current, newPassword, confirm).Some? ==>
                toast == Toast(PasswordFormError(current, newPassword, confirm).value, Error) &&
                store.legacyUsers == old(store.legacyUsers)
      ensures PasswordFormError(current, newPassword, confirm).None? && currentUser.None? ==>
                toast == Toast(PasswordChangeFailed, Error) && store.legacyUsers == old(store.legacyUsers)
      ensures PasswordFormError(current, newPassword, confirm).None? && currentUser.Some? ==>
                var r := ChangeStoredPassword(old(store.legacyUsers), currentUser.value.email, current, newPassword);
                (r.None? ==> toast == Toast(WrongCurrentPassword, Error) && store.legacyUsers == old(store.legacyUsers)) &&
                (r.Some? ==> toast == Toast(PasswordChanged, Success) && store.legacyUsers == r.value)
    {
      var formError := PasswordFormError(current, newPassword, confirm);
      if formError.Some? {
        return Toast(formError.value, Error);
      }
      if currentUser.None? {
        return Toast(PasswordChangeFailed, Error);
      }
      var r := ChangeStoredPassword(store.legacyUsers, currentUser.value.email, current, newPassword);
      if r.None? {
        return Toast(WrongCurrentPassword, Error);
      }
      store.legacyUsers := r.value;
      toast := Toast(PasswordChanged, Success);
    }

    /** The password change the form evidently means: the user is looked
        up among the accounts login accepts (the built-in ones, shadowed by
        the stored ones) and the new password is stored where login reads
        it. */
    method HandlePasswordChangeCorrected(current: string, newPassword: string, confirm: string) returns (toast: Toast)
      modifies store`usersDb
      ensures PasswordFormError(current, newPassword, confirm).Some? ==>
                toast == Toast(PasswordFormError(current, newPassword, confirm).value, Error) &&
                store.usersDb == old(store.usersDb)
      ensures PasswordFormError(current, newPassword, confirm).None? && currentUser.None? ==>
                toast == Toast(PasswordChangeFailed, Error) && store.usersDb == old(store.usersDb)
      ensures PasswordFormError(current, newPassword, confirm).None? && currentUser.Some? ==>
                var email := currentUser.value.email;
                var known := MockClient.DefaultUsers() + old(store.usersDb);
                var r := ChangeStoredPassword(known, email, current, newPassword);
                (r.None? ==> toast == Toast(WrongCurrentPassword, Error) && store.usersDb == old(store.usersDb)) &&
                (r.Some? ==> toast == Toast(PasswordChanged, Success) &&
                             store.usersDb == old(store.usersDb)[email := r.value[email]])
      ensures toast.kind == Success ==>
                forall inMemory :: MockClient.Authenticate(inMemory + store.usersDb, currentUser.value.email, newPassword).Some?
    {
      var formError := PasswordFormError(current, newPassword, confirm);
      if formError.Some? {
        return Toast(formError.value, Error);
      }
      if currentUser.None? {
        return Toast(PasswordChangeFailed, Error);
      }
      var email := currentUser.value.email;
      var r := ChangeStoredPassword(MockClient.DefaultUsers() + store.usersDb, email, current, newPassword);
      if r.None? {
        return Toast(WrongCurrentPassword, Error);
      }
      store.usersDb := store.usersDb[email := r.value[email]];
      toast := Toast(PasswordChanged, Success);
      forall inMemory: map<string, UserRecord>
        ensures MockClient.Authenticate(inMemory + store.usersDb, email, newPassword).Some?
      {
        assert (inMemory + store.usersDb)[email].password == newPassword;
      }
    }

    /** Joins the club being shown: a visitor is asked to log in, a
        missing club makes the call throw; on success the shown member
        count goes up by exactly one, otherwise it is unchanged. */
    method JoinFanclub(reply: Reply<string>) returns (sent: Option<string>, toast: Toast)
      requires Valid()
      modifies this`currentFanclub
      ensures Valid()
      ensures currentUser.None? ==>
                sent.None? && toast == Toast("ファンクラブに参加するにはログインが必要です", Warning)
      ensures currentUser.Some? && old(currentFanclub).None? ==>
                sent.None? && toast == Toast("参加に失敗しました", Error)
      ensures currentUser.Some? && old(currentFanclub).Some? ==> sent == Some(old(currentFanclub).value.id)
      ensures sent.Some? && reply.Ok? ==>
                currentFanclub == Some(old(currentFanclub).value.(memberCount := old(currentFanclub).value.memberCount + 1)) &&
                toast == Toast(OrElse(reply.value, "ファンクラブに参加しました！"), Success)
      ensures sent.Some? && reply.Err? ==> toast == Toast(OrElse(reply.error, "参加に失敗しました"), Error)
      ensures sent.Some? && reply.Threw? ==> toast == Toast("参加に失敗しました", Error)
      ensures !(sent.Some? && reply.Ok?) ==> currentFanclub == old(currentFanclub)
    {
      if currentUser.None? {
        return None, Toast("ファンクラブに参加するにはログインが必要です", Warning);
      }
      if currentFanclub.None? {
        return None, Toast("参加に失敗しました", Error);
      }
      var c := currentFanclub.value;
      sent := Some(c.id);
      match reply {
        case Ok(message) =>
          currentFanclub := Some(c.(memberCount := c.memberCount + 1));
          toast := Toast(OrElse(message, "ファンクラブに参加しました！"), Success);
        case Err(e) =>
          toast := Toast(OrElse(e, "参加に失敗しました"), Error);
        case Threw =>
          toast := Toast("参加に失敗しました", Error);
      }
    }

    /** Leaves the club being shown once the user confirms (there is no
        login check); on success the shown member count drops by one but
        not below zero, otherwise it is unchanged. */
    method LeaveFanclub(confirmed: bool, reply: Reply<string>) returns (sent: Option<string>, toast: Option<Toast>)
      requires Valid()
      modifies this`currentFanclub
      ensures Valid()
      ensures !confirmed ==> sent.None? && toast.None?
      ensures confirmed && old(currentFanclub).None? ==> sent.None? && toast == Some(Toast("退会に失敗しました", Error))
      ensures confirmed && old(currentFanclub).Some? ==> sent == Some(old(currentFanclub).value.id)
      ensures sent.Some? && reply.Ok? ==>
                currentFanclub == Some(old(currentFanclub).value.(memberCount := CountAfterLeave(old(currentFanclub).value.memberCount))) &&
                toast == Some(Toast(OrElse(reply.value, "ファンクラブから退会しました"), Success))
      ensures sent.Some? && reply.Err? ==> toast == Some(Toast(OrElse(reply.error, "退会に失敗しました"), Error))
      ensures sent.Some? && reply.Threw? ==> toast == Some(Toast("退会に失敗しました", Error))
      ensures !(sent.Some? && reply.Ok?) ==> currentFanclub == old(currentFanclub)
      ensures currentFanclub.Some? && currentFanclub.value.memberCount < 0 ==> currentFanclub == old(currentFanclub)
    {
      if !confirmed {
        return None, None;
      }
      if currentFanclub.None? {
        return None, Some(Toast("退会に失敗しました", Error));
      }
      var c := currentFanclub.value;
      sent := Some(c.id);
      match reply {
        case Ok(message) =>
          currentFanclub := Some(c.(memberCount := CountAfterLeave(c.memberCount)));
          toast := Some(Toast(OrElse(message, "ファンクラブから退会しました"), Success));
        case Err(e) =>
          toast := Some(Toast(OrElse(e, "退会に失敗しました"), Error));
        case Threw =>
          toast := Some(Toast("退会に失敗しました", Error));
      }
    }

    /** `showFanclubDetail` (the fanclub-functions.js version): a club that
        is found becomes the club being shown; otherwise the shown club
        stays and an error is shown. */
    method ShowFanclubDetail(reply: Reply<Fanclub>) returns (toast: Option<Toast>)
      modifies this`currentFanclub
      ensures reply.Ok? ==> currentFanclub == Some(reply.value) && toast.None?
      ensures reply.Err? ==> currentFanclub == old(currentFanclub) && toast == Some(Toast("ファンクラブが見つかりません", Error))
      ensures reply.Threw? ==> currentFanclub == old(currentFanclub) && toast == Some(Toast("ファンクラブの読み込みに失敗しました", Error))
    {
      match reply {
        case Ok(c) =>
          currentFanclub := Some(c);
          toast := None;
        case Err(_) =>
          toast := Some(Toast("ファンクラブが見つかりません", Error));
        case Threw =>
          toast := Some(Toast("ファンクラブの読み込みに失敗しました", Error));
      }
    }

    /** Checks, in order, the title, the club and the editor, and only then
        sends the post: the excerpt defaults to the title and the
        visibility to `public`. The dialog closes only when the post was
        created. */
    method HandlePostSubmit(title: string, excerpt: string, visibility: string, editor: Option<string>, reply: Reply<Post>)
      returns (sent: Option<(string, MockClient.PostInput)>, toast: Toast)
      modifies this`postModalOpen
      ensures title == "" ==> sent.None? && toast == Toast("タイトルを入力してください", Error)
      ensures title != "" && currentFanclub.None? ==> sent.None? && toast == Toast("ファンクラブが選択されていません", Error)
      ensures title != "" && currentFanclub.Some? && editor.None? ==> sent.None? && toast == Toast("エディターが初期化されていません", Error)
      ensures sent.Some? <==> title != "" && currentFanclub.Some? && editor.Some?
      ensures sent.Some? ==>
                sent.value.0 == currentFanclub.value.id &&
                sent.value.1 == MockClient.PostInput(title, editor.value, Some(OrElse(excerpt, title)), None,
                                                     Some(OrElse(visibility, "public")))
      ensures sent.Some? && reply.Ok? ==> !postModalOpen && toast == Toast("記事を投稿しました", Success)
      ensures sent.Some? && !reply.Ok? ==> toast == Toast("記事の投稿に失敗しました", Error)
      ensures !(sent.Some? && reply.Ok?) ==> postModalOpen == old(postModalOpen)
    {
      if title == "" {
        return None, Toast("タイトルを入力してください", Error);
      }
      if currentFanclub.None? {
        return None, Toast("ファンクラブが選択されていません", Error);
      }
      if editor.None? {
        return None, Toast("エディターが初期化されていません", Error);
      }
      sent := Some((currentFanclub.value.id,
                    MockClient.PostInput(title, editor.value, Some(OrElse(excerpt, title)), None,
                                         Some(OrElse(visibility, "public")))));
      if reply.Ok? {
        postModalOpen := false;
        toast := Toast("記事を投稿しました", Success);
      } else {
        toast := Toast("記事の投稿に失敗しました", Error);
      }
    }

    /** Sends the trimmed chat input: a blank one is ignored without a
        word, a visitor is warned and a missing club is an error, none of
        them sending anything. The input is cleared only when the message
        was sent. */
    method HandleChatSubmit(reply: Reply<bool>) returns (sent: Option<(string, string)>, toast: Option<Toast>)
      modifies this`chatInput
      ensures Trim(old(chatInput)) == "" ==> sent.None? && toast.None?
      ensures Trim(old(chatInput)) != "" && currentUser.None? ==>
                sent.None? && toast == Some(Toast("チャットにはログインが必要です", Warning))
      ensures Trim(old(chatInput)) != "" && currentUser.Some? && currentFanclub.None? ==>
                sent.None? && toast == Some(Toast("ファンクラブが選択されていません", Error))
      ensures sent.Some? <==> Trim(old(chatInput)) != "" && currentUser.Some? && currentFanclub.Some?
      ensures sent.Some? ==> sent.value == (currentFanclub.value.id, Trim(old(chatInput)))
      ensures sent.Some? && reply.Ok? ==> chatInput == "" && toast == Some(Toast("メッセージを送信しました", Success))
      ensures sent.Some? && !reply.Ok? ==> toast == Some(Toast("メッセージの送信に失敗しました", Error))
      ensures !(sent.Some? && reply.Ok?) ==> chatInput == old(chatInput)
    {
      var message := Trim(chatInput);
      if message == "" {
        return None, None;
      }
      if currentUser.None? {
        return None, Some(Toast("チャットにはログインが必要です", Warning));
      }
      if currentFanclub.None? {
        return None, Some(Toast("ファンクラブが選択されていません", Error));
      }
      sent := Some((currentFanclub.value.id, message));
      if reply.Ok? {
        chatInput := "";
        toast := Some(Toast("メッセージを送信しました", Success));
      } else {
        toast := Some(Toast("メッセージの送信に失敗しました", Error));
      }
    }
  }

  /** As written, the password change cannot find even a built-in account:
      in a fresh browser nothing has been stored under `mock_users`, so the
      test account whose password login accepts is told its current
      password is wrong. */
  lemma LegacyPasswordChangeRejectsValidLogin()
    ensures MockClient.Authenticate(map[], "test@example.com", "password").Some?
    ensures ChangeStoredPassword(map[], "test@example.com", "password", "secret1").None?
  {
    assert "test@example.com" in MockClient.DefaultUsers();
  }

  /** As written, a password change followed by a login with the new
      password, the app and the client sharing one browser storage:
      whatever the change reports, login answers as it would have before
      it, so a user whose old password worked is refused the new one. */
  method LegacyChangeThenLogin(app: FanClubApp, client: MockClient.MockSupabaseClient, email: string,
                               current: string, newPassword: string, confirm: string, now: nat)
      returns (toast: Toast, login: Reply<AuthSession>)
    requires client.Valid() && app.store == client.store
    modifies app.store`legacyUsers, client`users, client`token, client.store`authToken
    ensures var known := old(client.users) + old(client.store.usersDb);
            (login.Ok? <==> MockClient.Authenticate(known, email, newPassword).Some?) &&
            (current != newPassword && MockClient.Authenticate(known, email, current).Some? ==> !login.Ok?)
  {
    toast := app.HandlePasswordChange(current, newPassword, confirm);
    login := client.Login(email, newPassword, now);
  }

  /** With the correction, the old password stops working once changed. */
  lemma CorrectedChangeRetiresOldPassword(usersDb: map<string, UserRecord>, inMemory: map<string, UserRecord>,
                                          email: string, current: string, newPassword: string)
    requires current != newPassword
    requires ChangeStoredPassword(MockClient.DefaultUsers() + usersDb, email, current, newPassword).Some?
    ensures var r := ChangeStoredPassword(MockClient.DefaultUsers() + usersDb, email, current, newPassword).value;
            MockClient.Authenticate(inMemory + usersDb[email := r[email]], email, current).None?
  {
    var r := ChangeStoredPassword(MockClient.DefaultUsers() + usersDb, email, current, newPassword).value;
    assert (inMemory + usersDb[email := r[email]])[email].password == newPassword;
  }

  /** A `try` statement is complete with a `catch` clause, a `finally`
      clause or both (section 14.15 of ECMA-262); a `try` block with
      neither is a syntax error, and a syntax error keeps the whole
      script from running. */
  datatype TryStatement = TryStatement(hasCatch: bool, hasFinally: bool)

  predicate TryParses(t: TryStatement) {
    t.hasCatch || t.hasFinally
  }

  /** The `try` of `loadChatMessages` in public/fanclub-functions.js as
      written: the block opened at line 433 is closed by the `},` at line
      490, which also ends the method, with no clause in between. */
  const LoadChatTryAsWritten := TryStatement(false, false)

  /** The same `try` with the `catch` the other loaders of the file have. */
  const LoadChatTryCorrected := TryStatement(true, false)

  /** How far loading the page gets. */
  datatype Startup =
    | ConstructorThrew  // the first `handleRoute` called a method the mixin adds
    | InitRejected      // `init` threw in `setupEventListeners`
    | Started           // `init` went on to the session restore and the clubs

  /** Loading the page, given whether the methods of
      public/fanclub-functions.js were added to the prototype and the hash
      the page was loaded with: the constructor routes a non-empty hash,
      and a club route calls `showFanclubDetail`; then `init` wires the
      listeners, among them `setupFanclubPageListeners`, before the session
      restore, the featured clubs and the password form. Without the
      mixin each of those calls throws. */
  function StartupOf(mixinLoaded: bool, hash: string): (s: Startup)
    ensures s == Started <==> mixinLoaded
    ensures s == ConstructorThrew <==>
              !mixinLoaded && hash != "" && Routing.PageAndParam(hash).0 == "fanclub" &&
              Routing.PageAndParam(hash).1.Some? && Routing.PageAndParam(hash).1.value != ""
  {
    if mixinLoaded then Started
    else if hash != "" && Routing.Route(hash, false).action.ShowFanclub? then ConstructorThrew
    else InitRejected
  }

  /** As written, public/fanclub-functions.js does not parse, so the page
      never gets to the session restore, whatever its hash, and a link to
      a club fails already in the constructor. */
  lemma AsWrittenPageNeverStarts(hash: string, id: string)
    requires id != "" && '/' !in id
    ensures !TryParses(LoadChatTryAsWritten)
    ensures StartupOf(TryParses(LoadChatTryAsWritten), hash) != Started
    ensures StartupOf(TryParses(LoadChatTryAsWritten), "fanclub/" + id) == ConstructorThrew
  {
    Routing.FanclubUrlRoundTrip(id, false);
  }

  /** With the `catch` in place the file parses and every page load gets
      through `init`; the rest of this model is of that program. */
  lemma CorrectedPageStarts(hash: string)
    ensures TryParses(LoadChatTryCorrected)
    ensures StartupOf(TryParses(LoadChatTryCorrected), hash) == Started
  {
  }
}
