/**
 * The notifications page (frontend/src/pages/Notifications.jsx): the role
 * filter that hides stock notifications from sales representatives and
 * accountants, the all/unread/read tabs and their counts, the relative
 * time label, and the grouping of the list by age. Times are milliseconds
 * since the epoch; "now" is one parameter for a whole rendering.
 */
module NotificationsPage {
  import opened Common

  /** A notification as the list endpoint returns it; an absent title or category is "". */
  datatype Notif = Notif(title: string, category: string, isRead: bool, createdAt: int)

  function UpperChar(c: char): char
  {
    if 'a' <= c <= 'z' then (c as int - 32) as char else c
  }

  /** `toUpperCase` on the ASCII letters role names are made of. */
  function Upper(s: string): (r: string)
    ensures |r| == |s| && forall i :: 0 <= i < |s| ==> r[i] == UpperChar(s[i])
  {
    if |s| == 0 then "" else [UpperChar(s[0])] + Upper(s[1..])
  }

  /** `(rawRole || 'OWNER').toUpperCase()`: a missing or empty role counts as the owner. */
  function Role(rawRole: Option<string>): (role: string)
    ensures rawRole.None? || rawRole == Some("") ==> role == "OWNER"
    ensures rawRole.Some? && rawRole.value != "" ==> role == Upper(rawRole.value)
  {
    Upper(if rawRole.None? || rawRole.value == "" then "OWNER" else rawRole.value)
  }

  predicate Restricted(role: string) { role == "SALES_REP" || role == "ACCOUNTANT" }

  /** Whether a notification is about stock: its category, or for older rows a title mentioning "stok". */
  predicate AboutStock(n: Notif) { n.category == "inventory" || (n.title != "" && Contains(Lower(n.title), "stok")) }

  /** `roleFiltered`: restricted roles lose the stock notifications, everyone else sees all. */
  function RoleFiltered(notifs: seq<Notif>, role: string): (r: seq<Notif>)
    ensures Restricted(role) ==> forall n :: n in r <==> n in notifs && !AboutStock(n)
    ensures !Restricted(role) ==> r == notifs
  {
    var keep := (n: Notif) => !(Restricted(role) && AboutStock(n));
    if !Restricted(role) then FilterAll(notifs, keep); Filter(notifs, keep)
    else Filter(notifs, keep)
  }

  /** Owners and managers see every notification, in order. */
  lemma OwnerSeesAll(notifs: seq<Notif>, rawRole: Option<string>)
    requires rawRole.None? || rawRole == Some("") || rawRole == Some("owner") || rawRole == Some("MANAGER")
    ensures RoleFiltered(notifs, Role(rawRole)) == notifs
  {
    assert Upper("owner") == "OWNER";
    assert Upper("OWNER") == "OWNER";
    assert Upper("MANAGER") == "MANAGER";
  }

  lemma {:induction false} FilterAll<T(!new)>(s: seq<T>, p: T -> bool)
    requires forall x :: x in s ==> p(x)
    ensures Filter(s, p) == s
  {
    if |s| > 0 {
      assert forall x :: x in s[1..] ==> x in s;
      FilterAll(s[1..], p);
    }
  }

  /** A sales representative, whatever the case of the stored role, never sees a stock notification. */
  lemma SalesRepSeesNoStock(notifs: seq<Notif>)
    ensures forall n :: n in RoleFiltered(notifs, Role(Some("sales_rep"))) ==>
              n.category != "inventory" && !(n.title != "" && Contains(Lower(n.title), "stok"))
  {
    assert Upper("sales_rep") == "SALES_REP";
  }

  // ---------------------------------------------------------------------------
  // Tabs

  predicate Unread(n: Notif) { !n.isRead }

  /** `filteredNotifications`: the unread tab, the read tab, or everything. */
  function TabFiltered(roleFiltered: seq<Notif>, tab: string): (r: seq<Notif>)
    ensures tab == "unread" ==> r == Filter(roleFiltered, Unread)
    ensures tab == "read" ==> r == Filter(roleFiltered, (n: Notif) => n.isRead)
    ensures tab != "unread" && tab != "read" ==> r == roleFiltered
  {
    if tab == "unread" then Filter(roleFiltered, Unread)
    else if tab == "read" then Filter(roleFiltered, (n: Notif) => n.isRead)
    else roleFiltered
  }

  /** `unreadCount`. */
  function UnreadCount(roleFiltered: seq<Notif>): (c: nat)
    ensures c <= |roleFiltered|
  {
    |Filter(roleFiltered, Unread)|
  }

  /**
   * The unread and read tabs split the list: their sizes add up to the
   * whole, so the read tab's badge, total minus unread, is the size of the
   * read tab.
   */
  lemma {:induction false} TabsPartition(roleFiltered: seq<Notif>)
    ensures |TabFiltered(roleFiltered, "unread")| + |TabFiltered(roleFiltered, "read")| == |roleFiltered|
    ensures |TabFiltered(roleFiltered, "read")| == |roleFiltered| - UnreadCount(roleFiltered)
  {
    if |roleFiltered| > 0 {
      TabsPartition(roleFiltered[1..]);
    }
  }

  // ---------------------------------------------------------------------------
  // Relative time and date groups

  const MinuteMs := 60000
  const HourMs := 3600000
  const DayMs := 86400000

  datatype Label = JustNow | MinutesAgo(minutes: int) | HoursAgo(hours: int) | DaysAgo(days: int) | OnDate(at: int)

  /** `formatDate`: whole minutes, hours or days since, and the date itself after a week. */
  function FormatDate(at: int, now: int): (l: Label)
    ensures l.JustNow? <==> (now - at) / MinuteMs < 1
    ensures l.MinutesAgo? <==> 1 <= (now - at) / MinuteMs < 60
    ensures l.MinutesAgo? ==> l.minutes == (now - at) / MinuteMs
    ensures l.HoursAgo? <==> 60 <= (now - at) / MinuteMs && (now - at) / HourMs < 24
    ensures l.HoursAgo? ==> l.hours == (now - at) / HourMs
    ensures l.DaysAgo? <==> 24 <= (now - at) / HourMs && (now - at) / DayMs < 7
    ensures l.DaysAgo? ==> l.days == (now - at) / DayMs
    ensures l.OnDate? <==> 7 <= (now - at) / DayMs
    ensures l.OnDate? ==> l.at == at && now - at >= 7 * DayMs
  {
    var diff := now - at;
    if diff / MinuteMs < 1 then JustNow
    else if diff / MinuteMs < 60 then MinutesAgo(diff / MinuteMs)
    else if diff / HourMs < 24 then HoursAgo(diff / HourMs)
    else if diff / DayMs < 7 then DaysAgo(diff / DayMs)
    else OnDate(at)
  }

  /** Every number shown is in its unit's range: 1–59 minutes, 1–23 hours, 1–6 days. */
  lemma LabelNumbersInRange(at: int, now: int)
    ensures match FormatDate(at, now)
            case MinutesAgo(m) => 1 <= m < 60
            case HoursAgo(h) => 1 <= h < 24
            case DaysAgo(d) => 1 <= d < 7
            case _ => true
  {
  }

  datatype Group = Today | Yesterday | ThisWeek | ThisMonth | Earlier

  function Heading(g: Group): string
  {
    match g
    case Today => "Bu gün"
    case Yesterday => "Dünən"
    case ThisWeek => "Bu həftə"
    case ThisMonth => "Bu ay"
    case Earlier => "Daha əvvəl"
  }

  /** The group of a notification by its age in whole days. */
  function GroupOf(n: Notif, now: int): (g: Group)
    ensures var days := (now - n.createdAt) / DayMs;
            (g == Today <==> days == 0) && (g == Yesterday <==> days == 1) &&
            (g == ThisMonth <==> 7 <= days < 30) && (g == Earlier <==> days >= 30)
  {
    var days := (now - n.createdAt) / DayMs;
    if days == 0 then Today
    else if days == 1 then Yesterday
    else if days < 7 then ThisWeek
    else if days < 30 then ThisMonth
    else Earlier
  }

  /** A notification dated in the future lands in "this week" (its age in days is negative). */
  lemma FutureIsThisWeek(n: Notif, now: int)
    requires n.createdAt > now
    ensures GroupOf(n, now) == ThisWeek
  {
  }

  /** The time label and the group agree: minutes and hours are today, one day is yesterday, two to six days this week. */
  lemma LabelMatchesGroup(n: Notif, now: int)
    requires now >= n.createdAt
    ensures match FormatDate(n.createdAt, now)
            case JustNow => GroupOf(n, now) == Today
            case MinutesAgo(_) => GroupOf(n, now) == Today
            case HoursAgo(_) => GroupOf(n, now) == Today
            case DaysAgo(d) => GroupOf(n, now) == (if d == 1 then Yesterday else ThisWeek)
            case OnDate(_) => GroupOf(n, now) == ThisMonth || GroupOf(n, now) == Earlier
  {
  }

  function Members(s: seq<Notif>, now: int, g: Group): seq<Notif>
  {
    Filter(s, (n: Notif) => GroupOf(n, now) == g)
  }

  lemma MembersSnoc(s: seq<Notif>, x: Notif, now: int, g: Group)
    ensures Members(s + [x], now, g) == if GroupOf(x, now) == g then Members(s, now, g) + [x] else Members(s, now, g)
  {
    FilterSnoc(s, x, (n: Notif) => GroupOf(n, now) == g);
  }

  /**
   * `groupByDate`: each group present holds, in list order, exactly the
   * notifications of that age, and a group is present only when it has one.
   */
  method GroupByDate(notifs: seq<Notif>, now: int) returns (groups: map<Group, seq<Notif>>)
    ensures forall g :: g in groups <==> Members(notifs, now, g) != []
    ensures forall g :: g in groups ==> groups[g] == Members(notifs, now, g)
  {
    groups := map[];
    var i := 0;
    while i < |notifs|
      invariant 0 <= i <= |notifs|
      invariant forall g :: g in groups <==> Members(notifs[..i], now, g) != []
      invariant forall g :: g in groups ==> groups[g] == Members(notifs[..i], now, g)
    {
      var n := notifs[i];
      var key := GroupOf(n, now);
      assert notifs[..i + 1] == notifs[..i] + [n];
      forall g {
        MembersSnoc(notifs[..i], n, now, g);
      }
      if key !in groups {
        groups := groups[key := []];
      }
      groups := groups[key := groups[key] + [n]];
      i := i + 1;
    }
    assert notifs[..|notifs|] == notifs;
  }

  function GroupSizes(s: seq<Notif>, now: int): nat
  {
    |Members(s, now, Today)| + |Members(s, now, Yesterday)| + |Members(s, now, ThisWeek)| +
    |Members(s, now, ThisMonth)| + |Members(s, now, Earlier)|
  }

  /** Every notification of the tab is shown in exactly one group: the group sizes add up to the list's length. */
  lemma {:induction false} GroupsPartition(s: seq<Notif>, now: int)
    ensures GroupSizes(s, now) == |s|
  {
    if |s| > 0 {
      var init := s[..|s| - 1];
      var last := s[|s| - 1];
      assert s == init + [last];
      GroupsPartition(init, now);
      MembersSnoc(init, last, now, Today);
      MembersSnoc(init, last, now, Yesterday);
      MembersSnoc(init, last, now, ThisWeek);
      MembersSnoc(init, last, now, ThisMonth);
      MembersSnoc(init, last, now, Earlier);
    }
  }
}
