/** The alert centre of `src/routes/Alerts.tsx`: the list filters, the
    read/delete operations, the two counters and the relative-time label. */
module Alerts {
  import opened Js
  import opened Seqs

  datatype AlertType = Critical | Warning | Info | Success
  datatype Priority = HighPriority | MediumPriority | LowPriority

  /** An alert; the category is one of the page's category keys. */
  datatype Alert = Alert(
    id: string, title: string, message: string, kind: AlertType, category: string,
    timestamp: string, isRead: bool, actionRequired: bool, priority: Priority, source: string)

  /** The four tabs above the list. */
  datatype ActiveFilter = All | Unread | CriticalOnly | ActionRequired

  /** The category selector's "no category" value. */
  const AllCategories := "all"

  // ------------------------------------------------------------------ filters

  function UnreadTest(): Alert -> bool { (a: Alert) => !a.isRead }
  function CriticalTest(): Alert -> bool { (a: Alert) => a.kind == Critical }
  function ActionTest(): Alert -> bool { (a: Alert) => a.actionRequired }
  function CategoryTest(category: string): Alert -> bool { (a: Alert) => a.category == category }

  /** The switch on the active tab; `All` has no case and filters nothing. */
  function ByTab(alerts: seq<Alert>, f: ActiveFilter): seq<Alert> {
    match f
    case Unread => Filter(alerts, UnreadTest())
    case CriticalOnly => Filter(alerts, CriticalTest())
    case ActionRequired => Filter(alerts, ActionTest())
    case All => alerts
  }

  function ByCategory(alerts: seq<Alert>, category: string): seq<Alert> {
    if category != AllCategories then Filter(alerts, CategoryTest(category)) else alerts
  }

  /** The list the page shows. */
  function Visible(alerts: seq<Alert>, f: ActiveFilter, category: string): seq<Alert> {
    ByCategory(ByTab(alerts, f), category)
  }

  /** What each tab asks of one alert. */
  predicate TabAccepts(f: ActiveFilter, a: Alert) {
    match f
    case All => true
    case Unread => !a.isRead
    case CriticalOnly => a.kind == Critical
    case ActionRequired => a.actionRequired
  }

  predicate Shown(f: ActiveFilter, category: string, a: Alert) {
    TabAccepts(f, a) && (category == AllCategories || a.category == category)
  }

  lemma TabIsSubsequence(alerts: seq<Alert>, f: ActiveFilter)
    ensures IsSubsequence(ByTab(alerts, f), alerts)
    ensures forall j :: 0 <= j < |ByTab(alerts, f)| ==> TabAccepts(f, ByTab(alerts, f)[j])
    ensures forall i :: 0 <= i < |alerts| && TabAccepts(f, alerts[i]) ==> alerts[i] in ByTab(alerts, f)
  {
    match f
    case Unread => FilterIsSubsequence(alerts, UnreadTest());
    case CriticalOnly => FilterIsSubsequence(alerts, CriticalTest());
    case ActionRequired => FilterIsSubsequence(alerts, ActionTest());
    case All => IsSubsequenceRefl(alerts);
  }

  /** The shown list keeps the order of `alerts`, holds only alerts that the
      tab and the category accept, and every such alert. */
  lemma VisibleIff(alerts: seq<Alert>, f: ActiveFilter, category: string)
    ensures IsSubsequence(Visible(alerts, f, category), alerts)
    ensures forall j :: 0 <= j < |Visible(alerts, f, category)| ==>
      Shown(f, category, Visible(alerts, f, category)[j])
    ensures forall i :: 0 <= i < |alerts| && Shown(f, category, alerts[i]) ==>
      alerts[i] in Visible(alerts, f, category)
  {
    var tab := ByTab(alerts, f);
    TabIsSubsequence(alerts, f);
    if category != AllCategories {
      FilterIsSubsequence(tab, CategoryTest(category));
      IsSubsequenceTrans(Visible(alerts, f, category), tab, alerts);
      forall i | 0 <= i < |alerts| && Shown(f, category, alerts[i])
        ensures alerts[i] in Visible(alerts, f, category)
      {
        var j :| 0 <= j < |tab| && tab[j] == alerts[i];
      }
    }
  }

  /** A shown alert appears as many times as in `alerts`, any other not at all. */
  lemma VisibleCounts(alerts: seq<Alert>, f: ActiveFilter, category: string)
    ensures forall a :: (multiset(Visible(alerts, f, category))[a] ==
      if Shown(f, category, a) then multiset(alerts)[a] else 0)
  {
    var tab := ByTab(alerts, f);
    assert forall a :: multiset(tab)[a] == if TabAccepts(f, a) then multiset(alerts)[a] else 0 by {
      match f
      case Unread => FilterMultiset(alerts, UnreadTest());
      case CriticalOnly => FilterMultiset(alerts, CriticalTest());
      case ActionRequired => FilterMultiset(alerts, ActionTest());
      case All =>
    }
    if category != AllCategories {
      FilterMultiset(tab, CategoryTest(category));
    }
  }

  /** The "all" tab with the "all" category shows every alert, in order. */
  lemma NoFilterShowsAll(alerts: seq<Alert>)
    ensures Visible(alerts, All, AllCategories) == alerts
  {
  }

  // --------------------------------------------------------------- operations

  /** `markAsRead(id)`: the alerts with that id become read. */
  function MarkAsRead(alerts: seq<Alert>, id: string): seq<Alert> {
    seq(|alerts|, i requires 0 <= i < |alerts| =>
      if alerts[i].id == id then alerts[i].(isRead := true) else alerts[i])
  }

  /** `markAllAsRead()`. */
  function MarkAllAsRead(alerts: seq<Alert>): seq<Alert> {
    seq(|alerts|, i requires 0 <= i < |alerts| => alerts[i].(isRead := true))
  }

  function KeepTest(id: string): Alert -> bool { (a: Alert) => a.id != id }
  function SameIdTest(id: string): Alert -> bool { (a: Alert) => a.id == id }
  function UnreadOtherTest(id: string): Alert -> bool { (a: Alert) => !a.isRead && a.id != id }

  /** `deleteAlert(id)`. */
  function DeleteAlert(alerts: seq<Alert>, id: string): seq<Alert> {
    Filter(alerts, KeepTest(id))
  }

  /** `unreadCount`. */
  function UnreadCount(alerts: seq<Alert>): nat {
    Count(alerts, UnreadTest())
  }

  /** `criticalCount`. */
  function CriticalCount(alerts: seq<Alert>): nat {
    Count(alerts, CriticalTest())
  }

  lemma CountsBounded(alerts: seq<Alert>)
    ensures UnreadCount(alerts) <= |alerts| && CriticalCount(alerts) <= |alerts|
  {
  }

  /** Marking one id read changes nothing but the read flag of the alerts
      with that id: same length, same order, every other field as it was. */
  lemma MarkAsReadEffect(alerts: seq<Alert>, id: string)
    ensures |MarkAsRead(alerts, id)| == |alerts|
    ensures forall i :: 0 <= i < |alerts| ==>
      MarkAsRead(alerts, id)[i].isRead == (alerts[i].isRead || alerts[i].id == id) &&
      MarkAsRead(alerts, id)[i].(isRead := alerts[i].isRead) == alerts[i]
  {
  }

  /** After `markAsRead(id)` the unread alerts are the earlier unread alerts
      with another id; so the unread count never grows. */
  lemma MarkAsReadUnreadCount(alerts: seq<Alert>, id: string)
    ensures UnreadCount(MarkAsRead(alerts, id)) == Count(alerts, UnreadOtherTest(id))
    ensures UnreadCount(MarkAsRead(alerts, id)) <= UnreadCount(alerts)
  {
    var marked := MarkAsRead(alerts, id);
    CountPointwise(alerts, marked, UnreadTest(), UnreadOtherTest(id));
    CountMonotone(alerts, marked, UnreadTest(), UnreadTest());
  }

  lemma MarkAsReadIdempotent(alerts: seq<Alert>, id: string)
    ensures MarkAsRead(MarkAsRead(alerts, id), id) == MarkAsRead(alerts, id)
  {
  }

  /** After `markAllAsRead` nothing is unread, and a second call changes nothing. */
  lemma MarkAllAsReadClearsUnread(alerts: seq<Alert>)
    ensures UnreadCount(MarkAllAsRead(alerts)) == 0
    ensures MarkAllAsRead(MarkAllAsRead(alerts)) == MarkAllAsRead(alerts)
    ensures CriticalCount(MarkAllAsRead(alerts)) == CriticalCount(alerts)
  {
    var all := MarkAllAsRead(alerts);
    CountZeroIff(all, UnreadTest());
    CountPointwise(alerts, all, CriticalTest(), CriticalTest());
  }

  /** `deleteAlert(id)` removes exactly the alerts with that id and keeps the
      rest, in order. */
  lemma DeleteAlertEffect(alerts: seq<Alert>, id: string)
    ensures IsSubsequence(DeleteAlert(alerts, id), alerts)
    ensures forall j :: 0 <= j < |DeleteAlert(alerts, id)| ==> DeleteAlert(alerts, id)[j].id != id
    ensures forall i :: 0 <= i < |alerts| && alerts[i].id != id ==> alerts[i] in DeleteAlert(alerts, id)
    ensures |DeleteAlert(alerts, id)| + Count(alerts, SameIdTest(id)) == |alerts|
  {
    FilterIsSubsequence(alerts, KeepTest(id));
    CountComplement(alerts, KeepTest(id), SameIdTest(id));
  }

  // --------------------------------------------------------------- formatTime

  /** The four outcomes of `formatTime`. */
  datatype TimeLabel = JustNow | HoursAgo(hours: int) | DaysAgo(days: int) | OnDate

  /** Bucketing of the age in milliseconds (None when the timestamp does not
      parse, so the age is NaN): whole hours and whole days, rounded down. */
  function Bucket(diffMs: Option<int>): TimeLabel {
    if diffMs.None? then OnDate
    else
      var hours := diffMs.value / 3600000;
      var days := hours / 24;
      if hours < 1 then JustNow
      else if hours < 24 then HoursAgo(hours)
      else if days < 7 then DaysAgo(days)
      else OnDate
  }

  const HourMs := 3600000
  const DayMs := 24 * HourMs

  /** The buckets stated on the age itself: under an hour, under a day,
      under a week, and the rest. */
  lemma BucketBounds(diffMs: Option<int>)
    ensures Bucket(diffMs) == JustNow <==> diffMs.Some? && diffMs.value < HourMs
    ensures Bucket(diffMs).HoursAgo? <==> diffMs.Some? && HourMs <= diffMs.value < DayMs
    ensures Bucket(diffMs).DaysAgo? <==> diffMs.Some? && DayMs <= diffMs.value < 7 * DayMs
    ensures Bucket(diffMs) == OnDate <==> diffMs.None? || diffMs.value >= 7 * DayMs
    ensures Bucket(diffMs).HoursAgo? ==>
      1 <= Bucket(diffMs).hours <= 23 &&
      Bucket(diffMs).hours * HourMs <= diffMs.value < (Bucket(diffMs).hours + 1) * HourMs
    ensures Bucket(diffMs).DaysAgo? ==>
      1 <= Bucket(diffMs).days <= 6 &&
      Bucket(diffMs).days * DayMs <= diffMs.value < (Bucket(diffMs).days + 1) * DayMs
  {
    if diffMs.Some? {
      var ms := diffMs.value;
      var hours := ms / HourMs;
      assert hours * HourMs <= ms < (hours + 1) * HourMs;
      var days := hours / 24;
      assert days * 24 <= hours < (days + 1) * 24;
      assert days * DayMs <= ms < (days + 1) * DayMs;
    }
  }

  /** The label text; the calendar date for old alerts comes from the
      browser's locale formatting and is a parameter here. */
  function FormatTime(diffMs: Option<int>, localeDate: string): string {
    match Bucket(diffMs)
    case JustNow => "Vừa xong"
    case HoursAgo(h) => IntToString(h) + " giờ trước"
    case DaysAgo(d) => IntToString(d) + " ngày trước"
    case OnDate => localeDate
  }

  /** An unparseable timestamp falls through to the date text. */
  lemma InvalidTimestampShowsDate(localeDate: string)
    ensures FormatTime(None, localeDate) == localeDate
  {
  }

  /** A future timestamp (negative age) reads "just now". */
  lemma FutureIsJustNow(diffMs: int, localeDate: string)
    requires diffMs < 0
    ensures FormatTime(Some(diffMs), localeDate) == "Vừa xong"
  {
  }
}
