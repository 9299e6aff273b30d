/** The analytics page: the date cutoff of the chosen time range, the counts and unique
    visitors computed from the resume's events, the ten most recent typed events, their
    labels, and the relative time shown next to each. Timestamps are milliseconds since
    the epoch; the clock readings the page takes are supplied by the caller. */
module Analytics {
  import opened Js
  import opened Strings

  /** One row of `resume_analytics`, as far as the page reads it. */
  datatype Event = Event(eventType: string, ip: Val, createdAt: int)

  const ViewType := "view"
  const DownloadType := "download"
  const LinkClickType := "link_click"

  // ---- fetchAnalytics ----

  /** The date filter: a cutoff only for 'week' and 'month' (the clock readings a week
      and a month back), none for 'all' or anything else. */
  function Cutoff(timeRange: string, weekAgo: int, monthAgo: int): (r: Option<int>)
    ensures r.Some? <==> timeRange == "week" || timeRange == "month"
    ensures timeRange == "week" ==> r == Some(weekAgo)
    ensures timeRange == "month" ==> r == Some(monthAgo)
  {
    if timeRange == "week" then Some(weekAgo)
    else if timeRange == "month" then Some(monthAgo)
    else None
  }

  /** `query.gte('created_at', cutoff)` when there is a cutoff: each event at or after
      the cutoff is kept as often as it occurs, and no other. */
  function Since(events: seq<Event>, cutoff: Option<int>): (r: seq<Event>)
    ensures cutoff.None? ==> r == events
    ensures forall i :: 0 <= i < |r| ==> r[i] in events && (cutoff.Some? ==> r[i].createdAt >= cutoff.value)
    ensures cutoff.Some? ==> forall i :: 0 <= i < |events| && events[i].createdAt >= cutoff.value ==> events[i] in r
    ensures forall e :: multiset(r)[e] == if cutoff.None? || e.createdAt >= cutoff.value then multiset(events)[e] else 0
  {
    if cutoff.None? then events else AtOrAfter(events, cutoff.value)
  }

  /** The events created at or after `c`, in their order. */
  function AtOrAfter(events: seq<Event>, c: int): (r: seq<Event>)
    ensures forall i :: 0 <= i < |r| ==> r[i] in events && r[i].createdAt >= c
    ensures forall i :: 0 <= i < |events| && events[i].createdAt >= c ==> events[i] in r
    ensures forall e :: multiset(r)[e] == if e.createdAt >= c then multiset(events)[e] else 0
    decreases |events|
  {
    if events == [] then []
    else
      var init := AtOrAfter(events[..|events| - 1], c);
      var last := events[|events| - 1];
      assert multiset(events) == multiset(events[..|events| - 1]) + multiset{last} by {
        assert events == events[..|events| - 1] + [last];
      }
      if last.createdAt >= c then init + [last] else init
  }

  /** `data.filter(a => a.event_type === t)`. */
  function OfType(data: seq<Event>, t: string): (r: seq<Event>)
    ensures |r| <= |data|
    ensures forall i :: 0 <= i < |r| ==> r[i].eventType == t && r[i] in data
    ensures forall i :: 0 <= i < |data| && data[i].eventType == t ==> data[i] in r
    ensures forall e :: multiset(r)[e] == if e.eventType == t then multiset(data)[e] else 0
    decreases |data|
  {
    if data == [] then []
    else
      var init := OfType(data[..|data| - 1], t);
      var last := data[|data| - 1];
      assert multiset(data) == multiset(data[..|data| - 1]) + multiset{last} by {
        assert data == data[..|data| - 1] + [last];
      }
      if last.eventType == t then init + [last] else init
  }

  /** The events of none of the three tracked types. */
  function Untracked(data: seq<Event>): seq<Event>
    decreases |data|
  {
    if data == [] then []
    else
      var init := Untracked(data[..|data| - 1]);
      var last := data[|data| - 1];
      if last.eventType !in {ViewType, DownloadType, LinkClickType} then init + [last] else init
  }

  /** Every event is counted in exactly one of the three totals or is of another type. */
  lemma {:induction false} CountsPartition(data: seq<Event>)
    ensures |OfType(data, ViewType)| + |OfType(data, DownloadType)| + |OfType(data, LinkClickType)| + |Untracked(data)| == |data|
    decreases |data|
  {
    if data != [] {
      CountsPartition(data[..|data| - 1]);
    }
  }

  /** `new Set(data.map(a => a.ip_address).filter(Boolean))`. */
  function VisitorIps(data: seq<Event>): (r: set<string>)
    ensures forall x :: x in r <==> x != "" && exists i :: 0 <= i < |data| && data[i].ip == Str(x)
    decreases |data|
  {
    if data == [] then {}
    else
      var init := VisitorIps(data[..|data| - 1]);
      var last := data[|data| - 1];
      assert forall i :: 0 <= i < |data| - 1 ==> data[..|data| - 1][i] == data[i];
      if Truthy(last.ip) then init + {last.ip.s} else init
  }

  /** There are never more unique visitors than events. */
  lemma {:induction false} VisitorsAtMostEvents(data: seq<Event>)
    ensures |VisitorIps(data)| <= |data|
    decreases |data|
  {
    if data != [] {
      var init := data[..|data| - 1];
      VisitorsAtMostEvents(init);
      var last := data[|data| - 1];
      if Truthy(last.ip) {
        assert VisitorIps(data) == VisitorIps(init) + {last.ip.s};
        assert |VisitorIps(init) + {last.ip.s}| <= |VisitorIps(init)| + 1;
      }
    }
  }

  /** Repeat visits from one address count once. */
  lemma RepeatVisitCountsOnce(data: seq<Event>, e: Event)
    requires e in data && Truthy(e.ip)
    ensures VisitorIps(data + [e]) == VisitorIps(data)
  {
    assert (data + [e])[..|data|] == data;
  }

  /** The page's `analytics` state. */
  datatype Summary = Summary(
    views: seq<Event>, downloads: seq<Event>, linkClicks: seq<Event>,
    totalViews: nat, totalDownloads: nat, totalClicks: nat, uniqueVisitors: nat)

  const EmptySummary := Summary([], [], [], 0, 0, 0, 0)

  /** The processing of the query's rows. */
  function Process(data: seq<Event>): (s: Summary)
    ensures s.totalViews == |s.views| && s.totalDownloads == |s.downloads| && s.totalClicks == |s.linkClicks|
    ensures s.views == OfType(data, ViewType) && s.downloads == OfType(data, DownloadType) && s.linkClicks == OfType(data, LinkClickType)
    ensures s.uniqueVisitors == |VisitorIps(data)|
    ensures s.totalViews + s.totalDownloads + s.totalClicks <= |data|
    ensures s.uniqueVisitors <= |data|
  {
    CountsPartition(data);
    VisitorsAtMostEvents(data);
    var views := OfType(data, ViewType);
    var downloads := OfType(data, DownloadType);
    var clicks := OfType(data, LinkClickType);
    Summary(views, downloads, clicks, |views|, |downloads|, |clicks|, |VisitorIps(data)|)
  }

  /** The 'all' range reads every event of the resume. */
  lemma AllRangeUnfiltered(stored: seq<Event>, weekAgo: int, monthAgo: int)
    ensures Process(Since(stored, Cutoff("all", weekAgo, monthAgo))) == Process(stored)
  {
  }

  class AnalyticsPage {
    var analytics: Summary
    var loading: bool
    var timeRange: string

    constructor()
      ensures analytics == EmptySummary && loading && timeRange == "all"
    {
      analytics := EmptySummary;
      loading := true;
      timeRange := "all";
    }

    method SelectRange(range: string)
      modifies this
      ensures timeRange == range && analytics == old(analytics) && loading == old(loading)
    {
      timeRange := range;
    }

    /** `fetchAnalytics`: the resume's events (as the backend returns them, newest first)
        are narrowed to the range's cutoff and processed; a failed query keeps the old
        figures. Loading ends either way. */
    method FetchAnalytics(stored: seq<Event>, failed: bool, weekAgo: int, monthAgo: int)
      modifies this
      ensures !loading && timeRange == old(timeRange)
      ensures failed ==> analytics == old(analytics)
      ensures !failed ==> analytics == Process(Since(stored, Cutoff(timeRange, weekAgo, monthAgo)))
    {
      loading := true;
      var dateFilter := Cutoff(timeRange, weekAgo, monthAgo);
      if !failed {
        var data := Since(stored, dateFilter);
        analytics := Process(data);
      }
      loading := false;
    }
  }

  // ---- getRecentActivity ----

  /** An event tagged with the list it came from. */
  datatype Activity = Activity(event: Event, kind: string)

  function Tag(events: seq<Event>, kind: string): (r: seq<Activity>)
    ensures |r| == |events|
    ensures forall i :: 0 <= i < |events| ==> r[i] == Activity(events[i], kind)
  {
    seq(|events|, i requires 0 <= i < |events| => Activity(events[i], kind))
  }

  predicate NewestFirst(s: seq<Activity>) {
    forall i, j :: 0 <= i < j < |s| ==> s[i].event.createdAt >= s[j].event.createdAt
  }

  /** Insertion into a newest-first list, ahead of the events no newer than it. */
  function InsertNewest(x: Activity, s: seq<Activity>): (r: seq<Activity>)
    requires NewestFirst(s)
    ensures NewestFirst(r)
    ensures multiset(r) == multiset(s) + multiset{x}
    ensures |r| == |s| + 1
    ensures r[0] == x || (|s| > 0 && r[0] == s[0])
    decreases |s|
  {
    if s == [] || s[0].event.createdAt <= x.event.createdAt then [x] + s
    else
      var rest := InsertNewest(x, s[1..]);
      assert s == [s[0]] + s[1..];
      [s[0]] + rest
  }

  /** `sort((a, b) => new Date(b.created_at) - new Date(a.created_at))`. */
  function SortNewest(xs: seq<Activity>): (r: seq<Activity>)
    ensures NewestFirst(r)
    ensures multiset(r) == multiset(xs)
    ensures |r| == |xs|
    decreases |xs|
  {
    if xs == [] then []
    else
      assert xs == [xs[0]] + xs[1..];
      InsertNewest(xs[0], SortNewest(xs[1..]))
  }

  /** `getRecentActivity()`: the three lists tagged and merged, newest first, cut to ten. */
  function RecentActivity(s: Summary): seq<Activity> {
    var all := Tag(s.views, ViewType) + Tag(s.downloads, DownloadType) + Tag(s.linkClicks, LinkClickType);
    var sorted := SortNewest(all);
    sorted[..if |sorted| < 10 then |sorted| else 10]
  }

  /** The recent activity holds min(10, all) events, newest first, all drawn from the
      three lists with their own tag, and no event left out is newer than one shown. */
  lemma RecentIsNewestTen(s: Summary)
    ensures var all := Tag(s.views, ViewType) + Tag(s.downloads, DownloadType) + Tag(s.linkClicks, LinkClickType);
      var r := RecentActivity(s);
      |r| == (if |all| < 10 then |all| else 10) &&
      NewestFirst(r) &&
      multiset(r) <= multiset(all) &&
      (forall x: Activity, y: Activity :: x in multiset(all) - multiset(r) && y in r ==> x.event.createdAt <= y.event.createdAt)
  {
    var all := Tag(s.views, ViewType) + Tag(s.downloads, DownloadType) + Tag(s.linkClicks, LinkClickType);
    var sorted := SortNewest(all);
    var k := if |sorted| < 10 then |sorted| else 10;
    PrefixIsNewest(sorted, k);
  }

  /** A prefix of a newest-first list is newest-first, and nothing after it is newer. */
  lemma PrefixIsNewest(sorted: seq<Activity>, k: nat)
    requires NewestFirst(sorted) && k <= |sorted|
    ensures NewestFirst(sorted[..k])
    ensures multiset(sorted[..k]) <= multiset(sorted)
    ensures forall x: Activity, y: Activity :: x in multiset(sorted) - multiset(sorted[..k]) && y in sorted[..k] ==>
      x.event.createdAt <= y.event.createdAt
  {
    var r := sorted[..k];
    assert sorted == r + sorted[k..];
    assert multiset(sorted) == multiset(r) + multiset(sorted[k..]);
    forall x: Activity, y: Activity | x in multiset(sorted) - multiset(r) && y in r
      ensures x.event.createdAt <= y.event.createdAt
    {
      assert x in multiset(sorted[k..]);
      var a :| 0 <= a < |sorted| - k && sorted[k..][a] == x;
      var b :| 0 <= b < k && r[b] == y;
      assert sorted[k + a] == x && sorted[b] == y;
    }
  }

  /** Each recent event carries the tag of the list it came from. */
  lemma RecentKinds(s: Summary)
    ensures forall a :: a in RecentActivity(s) ==>
      (a.kind == ViewType && a.event in s.views) ||
      (a.kind == DownloadType && a.event in s.downloads) ||
      (a.kind == LinkClickType && a.event in s.linkClicks)
  {
    var all := Tag(s.views, ViewType) + Tag(s.downloads, DownloadType) + Tag(s.linkClicks, LinkClickType);
    var sorted := SortNewest(all);
    forall a | a in RecentActivity(s)
      ensures (a.kind == ViewType && a.event in s.views) ||
        (a.kind == DownloadType && a.event in s.downloads) ||
        (a.kind == LinkClickType && a.event in s.linkClicks)
    {
      assert a in sorted;
      assert a in multiset(sorted);
      assert a in all;
    }
  }

  // ---- getEventLabel ----

  /** `getEventLabel(type)`: the three tracked types get their labels; any other type
      is shown as it is. */
  function EventLabel(t: string): (r: string)
    ensures t == ViewType ==> r == "Resume Viewed"
    ensures t == DownloadType ==> r == "Resume Downloaded"
    ensures t == LinkClickType ==> r == "Link Clicked"
    ensures t !in {ViewType, DownloadType, LinkClickType} ==> r == t
  {
    match t
    case "view" => "Resume Viewed"
    case "download" => "Resume Downloaded"
    case "link_click" => "Link Clicked"
    case _ => t
  }

  // ---- formatDate ----

  /** `${n} ${unit}${n !== 1 ? 's' : ''} ago`. */
  function Ago(n: int, unit: string): (r: string)
    ensures n == 1 ==> r == "1 " + unit + " ago"
    ensures n != 1 ==> r == IntToString(n) + " " + unit + "s ago"
  {
    IntToString(n) + " " + unit + (if n != 1 then "s" else "") + " ago"
  }

  /** `formatDate`: `diffMs` is the clock minus the event time, `localDate` the event
      date as `toLocaleDateString` prints it. The first of minutes (below 60), hours
      (below 24) and days (below 7), each rounded down, that fits is used. */
  function RelativeTime(diffMs: int, localDate: string): string {
    var mins := diffMs / 60000;
    var hours := diffMs / 3600000;
    var days := diffMs / 86400000;
    if mins < 60 then Ago(mins, "minute")
    else if hours < 24 then Ago(hours, "hour")
    else if days < 7 then Ago(days, "day")
    else localDate
  }

  /** The buckets: under an hour in minutes, then 1 to 23 hours, then 1 to 6 days, and
      from a week on the date itself. An hour count is never 0, a day count never 0. */
  lemma RelativeTimeBuckets(diffMs: int, localDate: string)
    ensures diffMs < 3600000 ==> RelativeTime(diffMs, localDate) == Ago(diffMs / 60000, "minute")
    ensures 3600000 <= diffMs < 86400000 ==>
      1 <= diffMs / 3600000 <= 23 && RelativeTime(diffMs, localDate) == Ago(diffMs / 3600000, "hour")
    ensures 86400000 <= diffMs < 604800000 ==>
      1 <= diffMs / 86400000 <= 6 && RelativeTime(diffMs, localDate) == Ago(diffMs / 86400000, "day")
    ensures 604800000 <= diffMs ==> RelativeTime(diffMs, localDate) == localDate
  {
  }

  /** An event less than a minute old reads "0 minutes ago"; one up to a minute ahead
      of the clock reads "-1 minutes ago". */
  lemma FutureEvents(diffMs: int, localDate: string)
    ensures -60000 < diffMs < 0 ==> RelativeTime(diffMs, localDate) == Ago(-1, "minute")
    ensures 0 <= diffMs < 60000 ==> RelativeTime(diffMs, localDate) == "0 minutes ago"
  {
  }
}
