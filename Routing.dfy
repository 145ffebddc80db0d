/**
 * Hash routing of `FanClubApp.handleRoute` (public/script.js): the text
 * after `#` is split on `/`, the first piece names the page and the
 * second, if any, is its parameter.
 */
module Routing {
  import opened Entities
  import opened JsString

  datatype Page = TopPage | MyPage
  datatype AuthTab = LoginTab | SignupTab

  datatype Action =
    | ShowFanclub(fanclubId: string)
    | OpenAuth(tab: AuthTab)
    | ShowPage(page: Page)
    | NoAction

  /** What the route does, and whether it then clears the hash. */
  datatype RouteDecision = RouteDecision(action: Action, clearHash: bool)

  /** The page piece and the parameter piece (`None` when absent) of a
      fragment, as `const [page, param] = hash.split('/')`. */
  function PageAndParam(fragment: string): (pp: (string, Option<string>))
    ensures pp.0 == Split(fragment, '/')[0]
    ensures pp.1.Some? <==> |Split(fragment, '/')| > 1
    ensures pp.1.Some? ==> pp.1.value == Split(fragment, '/')[1]
    ensures '/' !in pp.0 && (pp.1.Some? ==> '/' !in pp.1.value)
  {
    var parts := Split(fragment, '/');
    (parts[0], if |parts| > 1 then Some(parts[1]) else None)
  }

  /** `handleRoute` for the fragment `fragment` (the hash without `#`). */
  function Route(fragment: string, loggedIn: bool): (d: RouteDecision)
    ensures var (page, param) := PageAndParam(fragment);
            (d.action == NoAction <==> page == "fanclub" && (param.None? || param.value == "")) &&
            (d.action.ShowFanclub? ==> page == "fanclub" && param == Some(d.action.fanclubId))
    ensures d.action.ShowFanclub? ==> d.action.fanclubId != "" && '/' !in d.action.fanclubId
    ensures d.action == ShowPage(MyPage) ==> loggedIn
    ensures d.clearHash <==> d.action == ShowPage(TopPage) || (d.action == OpenAuth(LoginTab) && !loggedIn && PageAndParam(fragment).0 == "profile")
    ensures PageAndParam(fragment).0 == "login" ==> d == RouteDecision(OpenAuth(LoginTab), false)
    ensures PageAndParam(fragment).0 == "signup" ==> d == RouteDecision(OpenAuth(SignupTab), false)
    ensures PageAndParam(fragment).0 == "profile" ==>
              d == (if loggedIn then RouteDecision(ShowPage(MyPage), false) else RouteDecision(OpenAuth(LoginTab), true))
    ensures PageAndParam(fragment).0 !in {"fanclub", "login", "signup", "profile"} ==>
              d == RouteDecision(ShowPage(TopPage), true)
  {
    var (page, param) := PageAndParam(fragment);
    if page == "fanclub" then
      if param.Some? && param.value != "" then RouteDecision(ShowFanclub(param.value), false)
      else RouteDecision(NoAction, false)
    else if page == "login" then RouteDecision(OpenAuth(LoginTab), false)
    else if page == "signup" then RouteDecision(OpenAuth(SignupTab), false)
    else if page == "profile" then
      if loggedIn then RouteDecision(ShowPage(MyPage), false)
      else RouteDecision(OpenAuth(LoginTab), true)
    else RouteDecision(ShowPage(TopPage), true)
  }

  /** The hash `fanclub/<id>` the app writes after creating a club routes
      back to that club, for any id that is non-empty and has no `/`. */
  lemma FanclubUrlRoundTrip(id: string, loggedIn: bool)
    requires id != "" && '/' !in id
    ensures Route("fanclub/" + id, loggedIn) == RouteDecision(ShowFanclub(id), false)
  {
    var parts := ["fanclub", id];
    SplitJoin(parts, '/');
    assert Join(parts, '/') == "fanclub/" + id by {
      assert Join(parts[1..], '/') == id;
    }
  }

  /** The `profile` hash the app writes after a login or signup shows the
      member page once the user is logged in, and otherwise asks for a
      login and clears the hash. */
  lemma ProfileRoute(loggedIn: bool)
    ensures loggedIn ==> Route("profile", loggedIn) == RouteDecision(ShowPage(MyPage), false)
    ensures !loggedIn ==> Route("profile", loggedIn) == RouteDecision(OpenAuth(LoginTab), true)
  {
    SplitPiece("profile", '/');
  }

  /** Routing is stable once the hash is cleared: the empty hash shows the
      top page (and clearing it again changes nothing). */
  lemma ClearedHashShowsTop(loggedIn: bool)
    ensures Route("", loggedIn) == RouteDecision(ShowPage(TopPage), true)
  {
  }

  /** A parameter after `fanclub` is taken up to the next `/` only. */
  lemma {:induction false} FanclubParamStopsAtSlash(id: string, rest: string, loggedIn: bool)
    requires id != "" && '/' !in id
    ensures Route("fanclub/" + id + "/" + rest, loggedIn) == RouteDecision(ShowFanclub(id), false)
  {
    assert "fanclub/" + id + "/" + rest == "fanclub" + ['/'] + (id + ['/'] + rest);
    SplitAfterPiece("fanclub", id + ['/'] + rest, '/');
    SplitAfterPiece(id, rest, '/');
  }
}
