/**
 * The decisions behind the fan club page: which of the join / leave /
 * admin buttons show (`updateFanclubButtons`, public/script.js), the
 * defaults of the detail view, the relative chat times
 * (`formatChatTime`), and from public/fanclub-functions.js the chat
 * list (welcome seeding, who may delete what, whether the input shows)
 * and the ids of the tab panels.
 */
module FanclubView {
  import opened Entities
  import opened JsString

  /** Which buttons of the club header are displayed. */
  datatype Buttons = Buttons(join: bool, leave: bool, admin: bool)

  /** `updateFanclubButtons`: nothing for a visitor, only the admin panel
      for the club's owner, only "join" for anybody else. The leave button
      is never displayed. */
  function FanclubButtons(user: Option<SessionUser>, club: Fanclub): (b: Buttons)
    ensures !b.leave
    ensures b.admin <==> user.Some? && club.ownerId == Some(user.value.id)
    ensures b.join <==> user.Some? && club.ownerId != Some(user.value.id)
    ensures !(b.join && b.admin)
    ensures user.Some? ==> b.join || b.admin
  {
    if user.None? then Buttons(false, false, false)
    else if club.ownerId == Some(user.value.id) then Buttons(false, false, true)
    else Buttons(true, false, false)
  }

  /** What the detail header and the about tab display. */
  datatype DetailView = DetailView(coverSrc: string, name: string, description: string,
                                   memberCount: int, monthlyFee: int, purpose: string)

  const DetailPlaceholderPrefix := "https://via.placeholder.com/1200x400/3BAEC6/white?text="
  const NoPurpose := "特に記載なし"

  /** `renderFanclubDetail` (the fanclub-functions.js version): an empty
      cover becomes a placeholder titled with the name and an empty purpose
      reads "特に記載なし"; `member_count || 0` and `monthly_fee || 0` are
      the numbers themselves. */
  function RenderDetail(c: Fanclub): (v: DetailView)
    ensures v.coverSrc != "" && v.purpose != ""
    ensures c.coverImageUrl != "" ==> v.coverSrc == c.coverImageUrl
    ensures c.coverImageUrl == "" ==> v.coverSrc == DetailPlaceholderPrefix + c.name
    ensures c.purpose != "" ==> v.purpose == c.purpose
    ensures c.purpose == "" ==> v.purpose == NoPurpose
    ensures v.memberCount == c.memberCount && v.monthlyFee == c.monthlyFee
    ensures v.name == c.name && v.description == c.description
  {
    DetailView(if c.coverImageUrl != "" then c.coverImageUrl else DetailPlaceholderPrefix + c.name,
               c.name, c.description, c.memberCount, c.monthlyFee,
               if c.purpose != "" then c.purpose else NoPurpose)
  }

  const MinuteMs := 60000
  const HourMs := 3600000
  const DayMs := 86400000

  datatype ChatTime = JustNow | MinutesAgo(minutes: int) | HoursAgo(hours: int) | DateOnly

  /** `formatChatTime` with `now - sentAt` in milliseconds: "just now"
      under a minute (a message from the future included), whole minutes
      under an hour, whole hours under a day, the date otherwise. */
  function FormatChatTime(now: int, sentAt: int): (t: ChatTime)
    ensures var diff := now - sentAt;
            (t == JustNow <==> diff < MinuteMs) &&
            (t == DateOnly <==> diff >= DayMs)
    ensures t.MinutesAgo? ==> 1 <= t.minutes < 60 &&
                              t.minutes * MinuteMs <= now - sentAt < (t.minutes + 1) * MinuteMs
    ensures t.HoursAgo? ==> 1 <= t.hours < 24 &&
                            t.hours * HourMs <= now - sentAt < (t.hours + 1) * HourMs
  {
    var diff := now - sentAt;
    if diff < MinuteMs then JustNow
    else if diff < HourMs then MinutesAgo(diff / MinuteMs)
    else if diff < DayMs then HoursAgo(diff / HourMs)
    else DateOnly
  }

  /** An older message never shows a more recent label. */
  lemma FormatChatTimeMonotone(now: int, a: int, b: int)
    requires a <= b
    ensures Rank(FormatChatTime(now, b)) <= Rank(FormatChatTime(now, a))
  {
  }

  /** Orders the labels by the age they stand for, in minutes. */
  function Rank(t: ChatTime): int {
    match t
    case JustNow => 0
    case MinutesAgo(m) => m
    case HoursAgo(h) => 60 * h
    case DateOnly => 24 * 60
  }

  /** The text of a label other than the date. */
  function ChatTimeText(t: ChatTime): string
    requires !t.DateOnly?
  {
    match t
    case JustNow => "たった今"
    case MinutesAgo(m) => Decimal(if m < 0 then 0 else m) + "分前"
    case HoursAgo(h) => Decimal(if h < 0 then 0 else h) + "時間前"
  }

  const SystemUserId := "system"

  /** The user wrote the message. */
  predicate IsOwn(user: Option<SessionUser>, m: ChatMessage) {
    user.Some? && m.userId == Some(user.value.id)
  }

  /** The user owns the club being shown. */
  predicate IsClubOwner(user: Option<SessionUser>, club: Option<Fanclub>) {
    club.Some? && user.Some? && club.value.ownerId == Some(user.value.id)
  }

  /** `canDelete = isOwn || (isOwner && !isSystem)`: authors may delete
      their messages, and the club owner every message not from the
      system. */
  function CanDelete(user: Option<SessionUser>, club: Option<Fanclub>, m: ChatMessage): (b: bool)
    ensures user.None? ==> !b
    ensures IsOwn(user, m) ==> b
    ensures !IsOwn(user, m) && !IsClubOwner(user, club) ==> !b
    ensures m.userId == Some(SystemUserId) ==> (b <==> IsOwn(user, m))
    ensures m.userId != Some(SystemUserId) && IsClubOwner(user, club) ==> b
  {
    IsOwn(user, m) || (IsClubOwner(user, club) && m.userId != Some(SystemUserId))
  }

  /** The two greetings shown in an empty chat: one from the system, one
      in the name of the club's owner (or of an admin). */
  function WelcomeMessages(club: Option<Fanclub>, now: int): (ms: seq<ChatMessage>)
    ensures |ms| == 2
    ensures ms[0].userId == Some(SystemUserId)
    ensures club.Some? && club.value.ownerId.Some? && club.value.ownerId.value != "" ==>
              ms[1].userId == club.value.ownerId
    ensures !(club.Some? && club.value.ownerId.Some? && club.value.ownerId.value != "") ==>
              ms[1].userId == Some("admin")
  {
    var ownerId := if club.Some? && club.value.ownerId.Some? && club.value.ownerId.value != ""
                   then club.value.ownerId.value else "admin";
    var ownerName := if club.Some? && club.value.ownerName.Some? && club.value.ownerName.value != ""
                     then club.value.ownerName.value else "管理者";
    [ ChatMessage("welcome-1", Some(SystemUserId), Some("システム"), "ファンクラブチャットへようこそ！", now),
      ChatMessage("welcome-2", Some(ownerId), Some(ownerName), "みなさんで楽しくお話しましょう！", now) ]
  }

  /** The messages `loadChatMessages` shows for the reply of
      `getChatMessages` (`None` for a reply that is not ok): the fetched
      list when it has messages, the two greetings otherwise. The greetings
      are only displayed, never sent back to the client. */
  function MessagesToShow(fetched: Option<seq<ChatMessage>>, club: Option<Fanclub>, now: int): (ms: seq<ChatMessage>)
    ensures |ms| >= 1
    ensures fetched.Some? && fetched.value != [] ==> ms == fetched.value
    ensures fetched.None? || fetched.value == [] ==> ms == WelcomeMessages(club, now)
  {
    if fetched.Some? && fetched.value != [] then fetched.value else WelcomeMessages(club, now)
  }

  /** The owner of the club being shown may delete the owner's greeting
      but not the system's, and a plain visitor neither. */
  lemma SeededMessagesDeletion(user: SessionUser, club: Fanclub, now: int)
    ensures var ms := WelcomeMessages(Some(club), now);
            !CanDelete(Some(user), Some(club), ms[0]) || user.id == SystemUserId
    ensures club.ownerId == Some(user.id) && user.id != "" ==>
              CanDelete(Some(user), Some(club), WelcomeMessages(Some(club), now)[1])
    ensures club.ownerId != Some(user.id) && user.id != "admin" && user.id != SystemUserId ==>
              var ms := WelcomeMessages(Some(club), now);
              (ms[1].userId == Some(user.id) ==> CanDelete(Some(user), Some(club), ms[1])) &&
              (ms[1].userId != Some(user.id) ==> !CanDelete(Some(user), Some(club), ms[1]))
  {
    var ms := WelcomeMessages(Some(club), now);
    if club.ownerId == Some(user.id) && user.id != "" {
      assert ms[1].userId == Some(user.id);
    }
  }

  /** One rendered chat row. */
  datatype ChatRow = ChatRow(message: ChatMessage, own: bool, system: bool, deletable: bool)

  /** The rows of the chat list, one per message and in order. */
  function ChatRows(user: Option<SessionUser>, club: Option<Fanclub>, ms: seq<ChatMessage>): (rows: seq<ChatRow>)
    ensures |rows| == |ms|
    ensures forall k :: 0 <= k < |ms| ==>
              rows[k].message == ms[k] && rows[k].own == IsOwn(user, ms[k]) &&
              rows[k].system == (ms[k].userId == Some(SystemUserId)) &&
              rows[k].deletable == CanDelete(user, club, ms[k])
  {
    seq(|ms|, k requires 0 <= k < |ms| =>
      ChatRow(ms[k], IsOwn(user, ms[k]), ms[k].userId == Some(SystemUserId), CanDelete(user, club, ms[k])))
  }

  /** A visitor sees no delete button at all. */
  lemma VisitorDeletesNothing(club: Option<Fanclub>, ms: seq<ChatMessage>)
    ensures forall r :: r in ChatRows(None, club, ms) ==> !r.deletable
  {
    var rows := ChatRows(None, club, ms);
    forall r | r in rows ensures !r.deletable {
      var k :| 0 <= k < |rows| && rows[k] == r;
    }
  }

  /** `isFanclubMember`: for now, anybody logged in. */
  function IsFanclubMember(user: Option<SessionUser>): (b: bool)
    ensures b <==> user.Some?
  {
    user.Some?
  }

  /** `updateChatInputVisibility`: the input shows exactly when a user is
      logged in, the login prompt otherwise. */
  function ChatInputVisible(user: Option<SessionUser>): (b: bool)
    ensures b <==> user.Some?
  {
    user.Some? && IsFanclubMember(user)
  }

  /** The ids `switchFanclubTab` looks for, in order. */
  function FanclubTabIds(tabName: string): (ids: seq<string>)
    ensures |ids| == 2
    ensures ids[0] == tabName + "Tab"
    ensures ids[1] == "fanclub" + Capitalize(tabName) + "Tab"
  {
    [tabName + "Tab", "fanclub" + Capitalize(tabName) + "Tab"]
  }

  /** The panel `switchAdminTab` shows. */
  function AdminTabId(tabName: string): (id: string)
    ensures |id| == |tabName| + 8
    ensures |tabName| > 0 ==> id[5] == UpperChar(tabName[0]) && id[6..|id| - 3] == tabName[1..]
    ensures id[..5] == "admin" && id[|id| - 3..] == "Tab"
    ensures id[5..|id| - 3] == Capitalize(tabName)
  {
    "admin" + Capitalize(tabName) + "Tab"
  }

  /** `switchFanclubTab`'s search for the panel: the first candidate id
      that exists in the page, or none. */
  method FindFanclubTab(tabName: string, existing: set<string>) returns (found: Option<string>)
    ensures found.Some? ==> found.value in existing && found.value in FanclubTabIds(tabName)
    ensures found.None? ==> forall id :: id in FanclubTabIds(tabName) ==> id !in existing
    ensures FanclubTabIds(tabName)[0] in existing ==> found == Some(FanclubTabIds(tabName)[0])
  {
    var ids := FanclubTabIds(tabName);
    found := None;
    var k := 0;
    while k < |ids|
      invariant 0 <= k <= |ids|
      invariant found.None?
      invariant forall j :: 0 <= j < k ==> ids[j] !in existing
    {
      if ids[k] in existing {
        found := Some(ids[k]);
        break;
      }
      k := k + 1;
    }
  }
}
