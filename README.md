# Fan club web app — a Dafny model of its mock back end and app logic

The web app lets fans browse, create, join and leave fan clubs. Inside a club they
can read posts and chat. This project models two things:

- the in-browser back end `MockSupabaseClient`, which keeps its whole "database" in
  `localStorage`;
- the decision logic of the front end `FanClubApp`. This covers routing, search,
  the session, password change, join and leave, the buttons, the chat list and
  the post and chat forms.

For each part the model states and proves what the code promises.

Modules:

- `JsString`: the JavaScript string operations the app relies on: `trim`, ASCII
  `toLowerCase`/`toUpperCase`, `includes`, `split` on one character, and the
  decimal text of a number. It proves their specifications: `includes` holds iff
  the text occurs somewhere, `split`/`join` round-trip, and decimal text reads back
  as its number.
- `Entities`: the records (clubs, posts, chat messages, membership rows, users) and
  `Table`, a JavaScript object whose key order is observable. It also holds the
  class `Storage`, which is `localStorage` with one field per key.
- `MockClient`: the class `MockSupabaseClient`. Its fields are the token and the
  tables. `Valid()` says the fields are equal to what storage holds, because every
  write is mirrored. Each operation is a method whose `ensures` gives the whole new
  state, and those ensures are proved against pure specifications: first-match
  `find`, `some`, `filter`, and the joined-clubs list.
- `Routing`: `handleRoute`, with round-trip lemmas for the hashes the app writes.
- `Search`: the club search filter and the featured list.
- `FanclubView`: the header buttons, the detail view defaults, the relative chat
  times, the chat list (greetings, who may delete what, whether the input shows)
  and the tab ids.
- `App`: the class `FanClubApp`, covering routing on load and on hash changes,
  session restore, login, signup, logout, password change, join and leave, showing
  a club, and the post and chat forms. It also covers how far page loading gets.

The app's API client is not modelled. Each handler takes the awaited reply of
its call as a `Reply` parameter: `Ok`, `Err` (a reply that is not ok) or `Threw`.
It returns the request it sent, so "nothing was sent" is stated too. `Date.now()`
is a parameter `now`, and ids are built from its decimal text as in the source.

## Model

| member | source | states |
|---|---|---|
| `JsString.Trim` | public/script.js:406 | the result is the input minus a whitespace-only prefix and suffix, and neither starts nor ends with whitespace |
| `JsString.TrimLeft` | public/script.js:406 | the leading whitespace ends at the first character that is not whitespace, or at the end |
| `JsString.TrimRight` | public/script.js:406 | the trailing whitespace starts after the last character that is not whitespace, or at the start |
| `JsString.TrimIdempotent` | public/fanclub-functions.js:341 | trimming twice is trimming once |
| `JsString.TrimEmptyIff` | public/script.js:406-407 | a trimmed query is empty exactly when the input is all whitespace |
| `JsString.Lower` | public/script.js:414-415 | lower-casing keeps the length and maps every character by the ASCII rule |
| `JsString.LowerIdempotent` | public/script.js:414-415 | lower-casing twice is lower-casing once |
| `JsString.IncludesIff` | public/script.js:414-415 | `includes` holds exactly when the text occurs at some position |
| `JsString.IncludesEmpty` | public/script.js:414 | the empty text is included in every string |
| `JsString.Split` | public/script.js:30 | `split` yields at least one piece and no piece contains the separator |
| `JsString.JoinSplit` | public/script.js:30 | joining the pieces of a split gives the string back |
| `JsString.SplitAfterPiece` | public/script.js:30 | a separator-free piece followed by the separator splits off as the first part |
| `JsString.SplitPiece` | public/script.js:30 | a separator-free string splits into itself |
| `JsString.SplitJoin` | public/script.js:30 | splitting a join of separator-free pieces gives the pieces back |
| `JsString.Decimal` | public/mock-supabase-client.js:284 | the decimal text of a number is non-empty, all digits and has no leading zero |
| `JsString.DecimalRoundTrip` | public/mock-supabase-client.js:284 | reading the decimal text back gives the number |
| `JsString.DecimalInjective` | public/mock-supabase-client.js:128 | distinct timestamps give distinct id texts |
| `JsString.Capitalize` | public/fanclub-functions.js:144 | only the first character is upper-cased; the length is kept |
| `Entities.UserNameOf` | public/mock-supabase-client.js:292 | the name shown for the stored user is its nickname, or its name when the nickname is empty, and is absent without a stored user |
| `Entities.CountAfterLeave` | public/mock-supabase-client.js:476 | the count after a leave is one less, never below zero |
| `Entities.Table.Put` | public/mock-supabase-client.js:302-310 | assigning a key keeps the table well formed; a new key goes last and an existing key keeps its place |
| `Entities.EmptyTable` | public/mock-supabase-client.js:11 | the empty object is a well-formed table with no keys |
| `Entities.Storage.constructor` | public/mock-supabase-client.js:6-11 | a fresh browser profile has nothing stored under any key |
| `MockClient.Authenticate` | public/mock-supabase-client.js:111-126 | a stored user shadows a built-in one with the same e-mail; the login succeeds exactly when the password of the account found matches |
| `MockClient.SessionOf` | public/mock-supabase-client.js:131-137 | the session user carries the account's id, name and phone, the given e-mail, and the nickname falling back to the name |
| `MockClient.FindIndex` | public/mock-supabase-client.js:248 | `find` returns the first club with the id, and none exactly when no club has it |
| `MockClient.FindIndexAppendFresh` | public/mock-supabase-client.js:299 | after appending a club with an unused id, `find` returns it |
| `MockClient.HasMember` | public/mock-supabase-client.js:430 | `some` holds exactly when a row of the list belongs to the user |
| `MockClient.WithoutUser` | public/mock-supabase-client.js:469 | `filter` removes every row of the user, keeps every other row, and changes nothing when the user has no row |
| `MockClient.WithoutUserLeavesNoRow` | public/mock-supabase-client.js:469 | after the filter the user has no row left |
| `MockClient.WithoutUserOne` | public/mock-supabase-client.js:469 | a single row is dropped exactly when it is the user's, and kept once otherwise |
| `MockClient.WithoutUserAppend` | public/mock-supabase-client.js:469 | filtering distributes over concatenation; with the single-row case, the kept rows appear once each and in their original order |
| `MockClient.JoinedOverSound` | public/mock-supabase-client.js:494-502 | every joined club is the club `find` returns for a key whose list holds the user |
| `MockClient.JoinedOverComplete` | public/mock-supabase-client.js:494-502 | every club whose list holds the user is in the joined list |
| `MockClient.JoinedIffMember` | public/mock-supabase-client.js:486-519 | a club is among the joined clubs exactly when `checkMembershipStatus` holds for it |
| `MockClient.CreatedClubIsJoined` | public/mock-supabase-client.js:283-316 | a club created under an unused id is among its creator's joined clubs |
| `MockClient.CountJoined` | public/mock-supabase-client.js:449-453 | a join adds exactly one to the count of the club found and changes no other club |
| `MockClient.CountLeft` | public/mock-supabase-client.js:473-477 | a leave sets the count of the club found to `max(0, n - 1)` and changes no other club |
| `MockClient.CountsStayNonNegative` | public/mock-supabase-client.js:449-477 | joins and leaves keep every member count non-negative |
| `MockClient.JoinThenLeaveRestoresCount` | public/mock-supabase-client.js:449-477 | a leave right after a join restores every count |
| `MockClient.FindIndexSameIds` | public/mock-supabase-client.js:450 | `find` depends on the ids alone, so changing counts does not move it |
| `MockClient.NewFanclub` | public/mock-supabase-client.js:283-295 | the new club has id `fanclub_<now>`, one member, the stored user as owner, fee 0 when missing and a placeholder cover when missing or empty |
| `MockClient.OwnerRow` | public/mock-supabase-client.js:306-311 | the creator's row carries the creator's id and the owner role |
| `MockClient.MockSupabaseClient.constructor` | public/mock-supabase-client.js:5-15 | loads every table from storage and seeds the demo data when there is no club |
| `MockClient.MockSupabaseClient.InitializeDefaultData` | public/mock-supabase-client.js:17-93 | with no club, adds the demo club, its two posts and two chat messages; otherwise changes nothing |
| `MockClient.MockSupabaseClient.SetToken` | public/mock-supabase-client.js:95-102 | keeps the token and stores it, or removes the stored one when it is empty |
| `MockClient.MockSupabaseClient.Login` | public/mock-supabase-client.js:104-152 | merges the stored users in; succeeds exactly when `Authenticate` finds the account; only a success sets the token |
| `MockClient.MockSupabaseClient.Signup` | public/mock-supabase-client.js:154-212 | refuses an e-mail that is stored or built in and changes no table or token; otherwise stores the user under the e-mail and sets the token |
| `MockClient.MockSupabaseClient.GetCurrentUser` | public/mock-supabase-client.js:214-229 | no user without a token, otherwise the stored `current_user` |
| `MockClient.MockSupabaseClient.GetFanclubs` | public/mock-supabase-client.js:231-244 | re-reading the list from storage returns the list held, which stays unchanged |
| `MockClient.MockSupabaseClient.GetFanclub` | public/mock-supabase-client.js:246-266 | returns the first club with the id, or the not-found error exactly when no club has it |
| `MockClient.MockSupabaseClient.CreateFanclub` | public/mock-supabase-client.js:268-322 | without a token refuses and changes nothing; otherwise appends exactly one club with empty posts and chat and the owner row, and that club is joined |
| `MockClient.MockSupabaseClient.StoreNewFanclub` | public/mock-supabase-client.js:299-316 | the writes of a creation: the club appended, empty posts and chat under its id, the owner row added to its list, all mirrored to storage |
| `MockClient.MockSupabaseClient.CreatePost` | public/mock-supabase-client.js:338-372 | appends one post by the stored user with visibility defaulting to `public`; no other club's posts change |
| `MockClient.MockSupabaseClient.GetPosts` | public/mock-supabase-client.js:324-336 | the club's posts, or none for a club without posts |
| `MockClient.MockSupabaseClient.SendChatMessage` | public/mock-supabase-client.js:388-415 | appends one message by the stored user to that club's chat only |
| `MockClient.MockSupabaseClient.GetChatMessages` | public/mock-supabase-client.js:374-386 | the club's messages, or none for a club without a chat |
| `MockClient.MockSupabaseClient.JoinFanclub` | public/mock-supabase-client.js:417-458 | an existing member is refused and nothing changes; otherwise one member row is appended and only that club's count rises by one; afterwards the user is a member |
| `MockClient.MockSupabaseClient.LeaveFanclub` | public/mock-supabase-client.js:460-484 | removes the user's rows, keeping other users' rows; lowers the count to `max(0, n - 1)` even without a row; afterwards the user is not a member |
| `MockClient.MockSupabaseClient.GetJoinedFanclubs` | public/mock-supabase-client.js:486-509 | the loop over the membership keys returns the joined-clubs list, in key order |
| `MockClient.MockSupabaseClient.CheckMembershipStatus` | public/mock-supabase-client.js:511-519 | false for a club without a list, otherwise whether some row is the user's |
| `Routing.PageAndParam` | public/script.js:29-30 | the page is the first piece of the split and the parameter the second when there is one; neither contains `/` |
| `Routing.Route` | public/script.js:28-58 | `fanclub/<id>` shows that club and `fanclub` without a parameter does nothing; `login` and `signup` open that tab; `profile` (with or without a parameter) shows the member page when logged in and otherwise opens the login tab and clears the hash; any other page shows the top page; the member page only when logged in; the hash is cleared exactly for the top page and for a profile request without login |
| `Routing.FanclubUrlRoundTrip` | public/script.js:585-588 | the hash `fanclub/<id>` that the app writes routes back to that club |
| `Routing.ProfileRoute` | public/script.js:473 | the hash `profile` shows the member page when logged in, and otherwise opens the login and clears the hash |
| `Routing.ClearedHashShowsTop` | public/script.js:53-56 | the empty hash shows the top page |
| `Routing.FanclubParamStopsAtSlash` | public/script.js:30-36 | a club id is taken only up to the next `/` |
| `Search.MatchesIff` | public/script.js:413-416 | a club matches exactly when the lower-cased query occurs in its lower-cased name or description |
| `Search.FilterClubs` | public/script.js:413-416 | the results are exactly the matching clubs, no more than the input, and all of them when every club matches |
| `Search.FilterAppend` | public/script.js:413-416 | filtering distributes over concatenation, so the original order is kept |
| `Search.FilterIgnoresQueryCase` | public/script.js:414-415 | the case of the query's letters does not change the results |
| `Search.SearchResult` | public/script.js:405-449 | a blank query does nothing in the header search and reloads the full list on the search page; otherwise the results are the reply filtered by the trimmed query: exactly the matching clubs, in the reply's order (`Search.FilterClubs`, `Search.FilterAppend`); a failed reply changes nothing and a thrown one shows an error |
| `Search.SearchIgnoresPadding` | public/script.js:406 | whitespace around the query does not change the outcome |
| `Search.Featured` | public/script.js:679-701 | at most six clubs, a prefix of the reply in order; none when the reply failed |
| `Search.FeaturedAreFirst` | public/script.js:688 | every featured club is one of the first six of the reply |
| `FanclubView.FanclubButtons` | public/script.js:827-847 | no buttons for a visitor; only admin for the owner; only join for anybody else; never leave |
| `FanclubView.RenderDetail` | public/fanclub-functions.js:101-125 | an empty cover becomes a placeholder and an empty purpose reads `特に記載なし`; count and fee are shown as they are |
| `FanclubView.FormatChatTime` | public/script.js:1235-1244 | just now under a minute, whole minutes under an hour, whole hours under a day, the date otherwise, with the floor bounds |
| `FanclubView.FormatChatTimeMonotone` | public/script.js:1235-1244 | an older message never gets a more recent label |
| `FanclubView.CanDelete` | public/fanclub-functions.js:467-471 | authors may delete their own messages, the owner every non-system one, a visitor none; a system message only by the user whose id is `system` |
| `FanclubView.WelcomeMessages` | public/fanclub-functions.js:444-463 | two greetings, the first from `system` and the second from the owner, or from `admin` without one |
| `FanclubView.MessagesToShow` | public/fanclub-functions.js:436-464 | a non-empty fetched list is shown as it is; otherwise the two greetings, which are not sent back to the client |
| `FanclubView.SeededMessagesDeletion` | public/fanclub-functions.js:444-471 | the owner may delete the owner's greeting but not the system's; other users may delete neither |
| `FanclubView.ChatRows` | public/fanclub-functions.js:467-485 | one row per message, in order, carrying the message's own, system and deletable flags |
| `FanclubView.VisitorDeletesNothing` | public/fanclub-functions.js:468-471 | a visitor sees no delete button |
| `FanclubView.IsFanclubMember` | public/fanclub-functions.js:281-284 | anybody logged in counts as a member |
| `FanclubView.ChatInputVisible` | public/fanclub-functions.js:268-279 | the chat input shows exactly when a user is logged in |
| `FanclubView.FanclubTabIds` | public/fanclub-functions.js:142-145 | the two candidate ids are `<tab>Tab` and then `fanclub<Tab>Tab` |
| `FanclubView.AdminTabId` | public/fanclub-functions.js:188 | the admin panel id is `admin`, then the tab name with its first letter upper-cased and the rest unchanged, then `Tab` |
| `FanclubView.FindFanclubTab` | public/fanclub-functions.js:146-154 | the panel found exists and is a candidate; the first candidate wins when it exists; none only when no candidate exists |
| `App.OrElse` | public/script.js:483 | `text \|\| fallback` is the text unless it is empty |
| `App.PasswordFormError` | public/script.js:341-354 | the form is rejected in this order: an empty field, a mismatch, a password shorter than six; it passes exactly when none applies |
| `App.ChangeStoredPassword` | public/script.js:363-374 | the change succeeds exactly when the user exists and the current password matches; only that user's password changes |
| `App.FanClubApp.constructor` | public/script.js:2-71 | nobody is logged in, the token is the one the client read from storage, and a non-empty hash has been routed once as for a visitor, so the page never opens on the member page and `profile` is routed to the login tab; the start of `init`, run before the constructor returns, then hides the auth dialog, so no hash leaves it open after loading |
| `App.FanClubApp.RouteOnLoad` | public/script.js:18-25 | the empty hash is not routed; any other is routed with nobody logged in and cleared when the route says so; the auth dialog is open exactly when the route chose an auth tab |
| `App.FanClubApp.HandleRoute` | public/script.js:28-58 | records what the route of the current hash does with the current login state, opens the auth dialog for an auth tab and otherwise leaves it as it was, and clears the hash exactly when the route says so |
| `App.FanClubApp.CloseAuthModal` | public/script.js:1264-1270 | the auth dialog is hidden |
| `App.FanClubApp.Init` | public/script.js:81-122 | a saved user is restored and replaced by the confirmed one; without a saved user an unconfirmed token is dropped with the stored user; an exception logs the header out |
| `App.FanClubApp.Logout` | public/script.js:1099-1107 | clears the user and the token in the app and in storage |
| `App.FanClubApp.HandleLogin` | public/script.js:451-487 | nothing is sent with an empty field; a success keeps the token in the app, stores the user, closes the auth dialog and moves to `profile`, which shows the member page; a failure changes nothing |
| `App.FanClubApp.HandleSignup` | public/script.js:489-529 | nothing is sent without nickname, e-mail or password; a success logs the new user in and closes the auth dialog as login does; a failure changes nothing |
| `App.FanClubApp.HandlePasswordChange` | public/script.js:334-385 | as written: checks the form in order, then looks the user up under the `mock_users` key; only a success writes that key |
| `App.FanClubApp.HandlePasswordChangeCorrected` | public/script.js:334-385 | the same checks against the accounts login accepts; after a success, login with the new password succeeds |
| `App.FanClubApp.JoinFanclub` | public/script.js:907-936 | a visitor is asked to log in and nothing is sent; a success raises the shown count by exactly one; otherwise the count is unchanged |
| `App.FanClubApp.LeaveFanclub` | public/script.js:938-965 | nothing happens without confirmation; a success sets the shown count to `max(0, n - 1)`; otherwise it is unchanged |
| `App.FanClubApp.ShowFanclubDetail` | public/fanclub-functions.js:49-99 | a club found becomes the club shown; otherwise the shown club stays and an error is shown |
| `App.FanClubApp.HandlePostSubmit` | public/fanclub-functions.js:286-336 | rejects a missing title, club or editor in that order without sending; the excerpt defaults to the title and the visibility to `public`; the dialog closes only on success |
| `App.FanClubApp.HandleChatSubmit` | public/fanclub-functions.js:338-375 | a blank message is ignored silently; a visitor is warned and a missing club is an error, without sending; the input is cleared only on success |
| `App.LegacyPasswordChangeRejectsValidLogin` | public/script.js:363-367 | from a fresh browser the test account that login accepts is told its current password is wrong |
| `App.LegacyChangeThenLogin` | public/script.js:370-374 | a change as written followed by a login with the new password: login answers as before the change, so whoever logged in with the old password is refused the new one |
| `App.CorrectedChangeRetiresOldPassword` | public/script.js:370-374 | with the correction, the old password stops working |
| `App.StartupOf` | public/script.js:13-74 | page loading gets to the session restore exactly when the mixin is loaded; without it, the constructor already throws exactly for a hash naming a club, and otherwise `init` throws in `setupEventListeners` |
| `App.AsWrittenPageNeverStarts` | public/fanclub-functions.js:433-490 | as written, the `try` without a clause keeps the file from parsing, so no hash reaches the session restore, and `fanclub/<id>` fails in the constructor |
| `App.CorrectedPageStarts` | public/fanclub-functions.js:416-490 | with a `catch` the file parses and every page load reaches the session restore |

## Left out

- The REST client (public/supabase-client.js) is not part of this model. The app
  is modelled apart from any client: each handler takes the awaited reply as a
  parameter. So the model does not capture the object aliasing that arises when
  the mock is plugged in. There, `currentFanclub` is the same object as the
  mock's array entry, and a join raises the count twice in memory.
- DOM work, HTML templates, the toast and loading overlay, Quill editors, image
  previews and uploads are left out. A handler returns the toast it shows and the
  request it sends. The few page elements a handler changes are fields of the
  app: the hash, the post dialog and the chat input box.
- `setTimeout` delays and `async` interleavings are left out. Every operation runs
  atomically, in order. One `now` stands for all `Date.now()` calls within one
  operation.
- Dates are millisecond integers, not ISO or locale strings.
  `toLocaleDateString`/`toLocaleTimeString` are not modelled, so
  `FanclubView.FormatChatTime` returns `DateOnly` for a message a day old or more.
- `encodeURIComponent` in the placeholder covers is not modelled; the club name
  is appended as it is.
- `toLowerCase`/`toUpperCase` act on ASCII letters only, and a string's length
  counts code points rather than UTF-16 units.
- JSON round trips of storage are not modelled, so there is no `NaN`, no
  `undefined` number and no string-typed count. `member_count || 0` and
  `monthly_fee || 0` are the numbers themselves. Integer-like object keys, which
  JavaScript would order first, are kept in insertion order.
- A user record keeps no e-mail or `created_at`, since no modelled operation
  reads them.
- `MockClient.MockSupabaseClient.constructor` requires the stored membership
  table to be well formed (each key once). A parsed JSON object always is.
- `updatePassword` and `uploadImage` of the mock are stubs that return fixed
  replies, and are not modelled.
- `loadJoinedFanclubs`, `loadAllFanclubs`, the list renderers and the script.js
  versions of methods that public/fanclub-functions.js overrides are not modelled.
  Neither are the helpers that call the undefined `apiCall`.
- `loadChatMessages` is modelled only for which messages it shows and who may
  delete them. Its missing `catch` is a finding below, and what follows from it is
  `App.StartupOf`. A `const` that it reassigns is not modelled.
- `App.StartupOf` models only how far page loading gets. The DOM lookups that
  `setupEventListeners` makes before line 232 are assumed to succeed.
- Which page is active is not modelled. That leaves out the `hashchange` that clearing
  the hash fires after the constructor returns, which routes the empty hash to the top
  page (`Routing.ClearedHashShowsTop`). It also leaves out the `showPage('topPage')`
  that ends `init` (script.js:130).
- `App.FanClubApp.Init` covers only the session restore. The featured list it then
  loads is `Search.Featured`.

## Findings

| source | as written | input that shows it | evidently intended | confidence | as-written member | corrected member |
|---|---|---|---|---|---|---|
| public/script.js:363-374 | the password change reads and writes `localStorage['mock_users']`; login and signup keep users under `mock_users_db` with built-in defaults, and nothing writes `mock_users` | logged in as `test@example.com` with password `password` in a fresh browser, changing to `secret1` reports the current password as wrong; a change that does succeed leaves login on the old password | look the user up where login does (defaults shadowed by `mock_users_db`) and store the new password there | not executed | `App.FanClubApp.HandlePasswordChange` | `App.FanClubApp.HandlePasswordChangeCorrected` |
| public/fanclub-functions.js:433-490 | the `try` in `loadChatMessages` has neither `catch` nor `finally`, which is a syntax error, so none of the file runs and the methods it adds to `FanClubApp` are missing; the constructor then throws on a club hash (script.js:37), and otherwise `init` throws at `setupFanclubPageListeners` (script.js:232), before the password form is wired and before the session restore and the featured clubs | loading the page with any hash; with `#fanclub/demo-fanclub-1` the app object is never created | close the `try` with a `catch` like the file's other loaders, so that the page starts | not executed | `App.AsWrittenPageNeverStarts` | `App.CorrectedPageStarts` |

The password-change finding is about the program once public/fanclub-functions.js
parses. As written, the password form is never wired, because script.js:234-235
runs only after line 232.
