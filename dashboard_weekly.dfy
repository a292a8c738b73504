/**
 * The weekly view of the dashboard in accrual mode with a custom range: the
 * real-time daily series bucketed into weeks counted from the real-time
 * start, the weeks overlapping the range turned into periods with their
 * platform and group breakdowns, periods with the same start and end merged,
 * and the daily post counts summed into each period.
 */
module DashboardWeekly {
  import opened Common
  import opened Days
  import opened Grouping
  import opened Dashboard

  // ---------------------------------------------------------------------
  // groupByWeek
  // ---------------------------------------------------------------------

  /** The week of day `d` counted from `start`, rounded down, so negative before it. */
  function WeekOf(d: Day, start: Day): (w: int)
    ensures start + 7 * w <= d <= start + 7 * w + 6
  {
    (d - start) / 7
  }

  /** Week `w` is the only week whose seven days contain `d`. */
  lemma WeekOfUnique(d: Day, start: Day, w: int)
    requires start + 7 * w <= d <= start + 7 * w + 6
    ensures WeekOf(d, start) == w
  {
    var v := WeekOf(d, start);
    assert 7 * (v - w) <= 6 && 7 * (w - v) <= 6;
  }

  function WeekKey(start: Day): Entry -> int
  {
    (e: Entry) => WeekOf(e.date, start)
  }

  /** An element of `groupByWeek`'s result: the week number, its first and last day, and the sums. */
  datatype Week = Week(weekNum: int, startDate: Day, endDate: Day, m: Metrics)

  function WeekNum(w: Week): int
  {
    w.weekNum
  }

  /** A grouped point keyed by week number as the bucket it stands for. */
  function WeekBucket(p: Point, start: Day): Week
  {
    Week(p.date, start + 7 * p.date, start + 7 * p.date + 6, p.m)
  }

  function Buckets(ps: seq<Point>, start: Day): (weeks: seq<Week>)
    ensures |weeks| == |ps| && forall i :: 0 <= i < |ps| ==> weeks[i] == WeekBucket(ps[i], start)
  {
    seq(|ps|, i requires 0 <= i < |ps| => WeekBucket(ps[i], start))
  }

  /**
   * The reference weekly buckets: one bucket per week some entry falls in,
   * ascending by week number, each holding the five counters summed over
   * the entries of that week.
   */
  function Weekly(series: seq<Entry>, start: Day): (weeks: seq<Week>)
    ensures forall i, j :: 0 <= i < j < |weeks| ==> weeks[i].weekNum < weeks[j].weekNum
  {
    Buckets(SortedSums(series, WeekKey(start), Pick(true)), start)
  }

  function WeekMetrics(w: Week): Metrics
  {
    w.m
  }

  /** The entries dated from `lo` to `hi`, in order. */
  function Within(series: seq<Entry>, lo: Day, hi: Day): (r: seq<Entry>)
    ensures forall e :: e in r <==> e in series && lo <= e.date <= hi
  {
    if series == [] then []
    else
      var last := series[|series| - 1];
      Within(series[..|series| - 1], lo, hi) + (if lo <= last.date <= hi then [last] else [])
  }

  /** The group of week `w` is the sum over exactly the entries dated in its seven days `lo..hi`. */
  lemma {:induction false} WeekSum(series: seq<Entry>, start: Day, w: int, lo: Day, hi: Day, val: Entry -> Metrics)
    requires lo == start + 7 * w && hi == lo + 6
    ensures GroupSum(series, WeekKey(start), val, w) == TotalOf(Within(series, lo, hi), val)
  {
    if series != [] {
      var init := series[..|series| - 1];
      var last := series[|series| - 1];
      WeekSum(init, start, w, lo, hi, val);
      var inner := Within(init, lo, hi);
      if lo <= last.date <= hi {
        WeekOfUnique(last.date, start, w);
        assert (inner + [last])[..|inner + [last]| - 1] == inner;
      } else {
        assert Within(series, lo, hi) == inner + [];
        assert inner + [] == inner;
        AddZero(GroupSum(init, WeekKey(start), val, w));
      }
    }
  }

  /** A bucket of the reference result is the group of its week number, which some entry carries. */
  lemma WeeklyGroup(series: seq<Entry>, start: Day, i: nat)
    requires i < |Weekly(series, start)|
    ensures var w := Weekly(series, start)[i];
      w.startDate == start + 7 * w.weekNum && w.endDate == w.startDate + 6 &&
      w.m == GroupSum(series, WeekKey(start), Pick(true), w.weekNum) &&
      exists e :: e in series && WeekOf(e.date, start) == w.weekNum
  {
    var ps := SortedSums(series, WeekKey(start), Pick(true));
    assert ps[i] in ps;
    SortedSumsMembers(series, WeekKey(start), Pick(true), ps[i]);
  }

  /**
   * Each bucket spans the seven days `start + 7w` to `start + 7w + 6` of its
   * week, holds at least one entry, and holds the five counters summed
   * over exactly the entries dated in those days.
   */
  lemma WeeklyBucket(series: seq<Entry>, start: Day, i: nat)
    requires i < |Weekly(series, start)|
    ensures var w := Weekly(series, start)[i];
      w.startDate == start + 7 * w.weekNum && w.endDate == w.startDate + 6 &&
      w.m == TotalOf(Within(series, w.startDate, w.endDate), Pick(true)) &&
      Within(series, w.startDate, w.endDate) != []
  {
    WeeklyGroup(series, start, i);
    var w := Weekly(series, start)[i];
    var e :| e in series && WeekOf(e.date, start) == w.weekNum;
    WeekContents(series, start, w, e);
  }

  lemma {:induction false} WeekContents(series: seq<Entry>, start: Day, w: Week, e: Entry)
    requires w.startDate == start + 7 * w.weekNum && w.endDate == w.startDate + 6
    requires w.m == GroupSum(series, WeekKey(start), Pick(true), w.weekNum)
    requires e in series && w.startDate <= e.date <= w.endDate
    ensures w.m == TotalOf(Within(series, w.startDate, w.endDate), Pick(true))
    ensures Within(series, w.startDate, w.endDate) != []
  {
    WeekSum(series, start, w.weekNum, w.startDate, w.endDate, Pick(true));
    assert e in Within(series, w.startDate, w.endDate);
  }

  /** Every entry falls in the bucket of its week, which spans its date. */
  lemma WeeklyCovers(series: seq<Entry>, start: Day, e: Entry)
    requires e in series
    ensures exists i :: 0 <= i < |Weekly(series, start)| &&
                        Weekly(series, start)[i].weekNum == WeekOf(e.date, start) &&
                        Weekly(series, start)[i].startDate <= e.date <= Weekly(series, start)[i].endDate
  {
    var ps := SortedSums(series, WeekKey(start), Pick(true));
    var k := WeekOf(e.date, start);
    var p := Point(k, GroupSum(series, WeekKey(start), Pick(true), k));
    SortedSumsMembers(series, WeekKey(start), Pick(true), p);
    var i :| 0 <= i < |ps| && ps[i] == p;
    assert Weekly(series, start)[i] == WeekBucket(p, start);
  }

  /** Summed over the buckets, each counter equals its sum over the input. */
  lemma WeeklyTotal(series: seq<Entry>, start: Day)
    ensures Total(KeyList(Weekly(series, start), WeekMetrics)) == TotalOf(series, Pick(true))
  {
    var ps := SortedSums(series, WeekKey(start), Pick(true));
    assert KeyList(Weekly(series, start), WeekMetrics) == MetricsOf(ps);
    SortedSumsTotal(series, WeekKey(start), Pick(true));
  }

  /** The weekly bucketing of a series: the entries summed into a map by week number, then sorted. */
  method GroupByWeek(series: seq<Entry>, start: Day) returns (weeks: seq<Week>)
    ensures weeks == Weekly(series, start)
  {
    var acc: map<int, Metrics> := map[];
    var order: seq<int> := [];
    assert [] + series == series;
    acc, order := GroupInto(acc, order, [], series, WeekKey(start), Pick(true));
    GroupedListing(acc, order, series, WeekKey(start), Pick(true));
    weeks := Buckets(SortedGroups(acc, order), start);
  }

  // ---------------------------------------------------------------------
  // The real-time filter and the range overlap test
  // ---------------------------------------------------------------------

  /** The entries dated from the real-time start on. */
  function Realtime(series: seq<Entry>): (r: seq<Entry>)
    ensures forall e :: e in r <==> e in series && e.date >= RealtimeStart
  {
    if series == [] then []
    else
      var last := series[|series| - 1];
      Realtime(series[..|series| - 1]) + (if last.date >= RealtimeStart then [last] else [])
  }

  /** The week ends no earlier than the range starts and starts no later than it ends. */
  predicate Overlaps(wStart: Day, wEnd: Day, start: Day, end: Day)
  {
    wEnd >= start && wStart <= end
  }

  predicate InSpan(d: Day, lo: Day, hi: Day)
  {
    lo <= d <= hi
  }

  /** For a non-empty week and a non-empty range, the test holds exactly when they share a day. */
  lemma OverlapsMeaning(wStart: Day, wEnd: Day, start: Day, end: Day)
    requires wStart <= wEnd && start <= end
    ensures Overlaps(wStart, wEnd, start, end) <==> exists d :: InSpan(d, wStart, wEnd) && InSpan(d, start, end)
  {
    if Overlaps(wStart, wEnd, start, end) {
      var d := if wStart < start then start else wStart;
      assert InSpan(d, wStart, wEnd) && InSpan(d, start, end);
    }
  }

  // ---------------------------------------------------------------------
  // The groups' weekly buckets and their entries by week number
  // ---------------------------------------------------------------------

  /** An element of `groupsWeekly`. */
  datatype GroupWeekly = GroupWeekly(name: string, weekly: seq<Week>)

  /** A group's real-time series under the platform filter. */
  function GroupRealtime(g: Group, platform: Platform): seq<Entry>
  {
    Realtime(GroupSeries(g, platform))
  }

  /** A group's contribution to `groupsWeekly`: nothing when its real-time series is empty. */
  function WeeklyPart(g: Group, platform: Platform): seq<GroupWeekly>
  {
    var s := GroupRealtime(g, platform);
    if s != [] then [GroupWeekly(g.name, Weekly(s, RealtimeStart))] else []
  }

  /**
   * The reference `groupsWeekly`: in group order, each group whose real-time
   * series is non-empty, with that series bucketed by week from the
   * real-time start.
   */
  function WeeklyGroups(groups: seq<Group>, platform: Platform): seq<GroupWeekly>
  {
    ConcatMap(groups, g => WeeklyPart(g, platform))
  }

  /** A weekly group is a group with real-time entries, and its buckets are that series by week. */
  lemma WeeklyGroupsMembers(groups: seq<Group>, platform: Platform, gw: GroupWeekly)
    ensures gw in WeeklyGroups(groups, platform) <==> exists i :: 0 <= i < |groups| && gw in WeeklyPart(groups[i], platform)
  {
    ConcatMapMembers(groups, g => WeeklyPart(g, platform), gw);
  }

  /**
   * Under the accrual mask and the TikTok filter, a group without a TikTok
   * series leaves the weekly view; without the mask it would show its
   * combined real-time series.
   */
  lemma MaskedGroupLeavesWeekly(data: SeriesData, cutoff: Day, i: nat)
    requires i < |data.groups| && data.groups[i].seriesTikTok.None?
    ensures WeeklyPart(MaskResponse(data, cutoff).groups[i], TikTokOnly) == []
    ensures var s := Realtime(data.groups[i].series);
      WeeklyPart(data.groups[i], TikTokOnly) == if s != [] then [GroupWeekly(data.groups[i].name, Weekly(s, RealtimeStart))] else []
  {
    MaskedMissingPlatform(data, cutoff, i, 0, Views);
  }

  lemma WeeklyGroupsStep(groups: seq<Group>, platform: Platform, i: nat)
    requires i < |groups|
    ensures var s := GroupRealtime(groups[i], platform);
      WeeklyGroups(groups[..i + 1], platform) ==
        if s != [] then WeeklyGroups(groups[..i], platform) + [GroupWeekly(groups[i].name, Weekly(s, RealtimeStart))]
        else WeeklyGroups(groups[..i], platform)
  {
    ConcatMapSnoc(groups, g => WeeklyPart(g, platform), i);
    var w := WeeklyGroups(groups[..i], platform);
    assert w + [] == w;
  }

  /** The loop over the groups: each group's real-time series, filtered, bucketed when non-empty. */
  method GroupsWeekly(groups: seq<Group>, platform: Platform) returns (gws: seq<GroupWeekly>)
    ensures gws == WeeklyGroups(groups, platform)
  {
    gws := [];
    for i := 0 to |groups|
      invariant gws == WeeklyGroups(groups[..i], platform)
    {
      WeeklyGroupsStep(groups, platform, i);
      var s := GroupRealtime(groups[i], platform);
      if |s| > 0 {
        var weekly := GroupByWeek(s, RealtimeStart);
        gws := gws + [GroupWeekly(groups[i].name, weekly)];
      }
    }
    assert groups[..|groups|] == groups;
  }

  /** A group's entry of a period: its name and its views, likes and comments. */
  datatype GroupVal = GroupVal(name: string, m: Metrics)

  /** Views, likes and comments only, the other counters 0. */
  function Basic(m: Metrics): Metrics
  {
    Metrics(m.views, m.likes, m.comments, 0, 0)
  }

  /** The entries one weekly group pushes for week `n`: one per bucket numbered `n`. */
  function BucketsAt(name: string, weekly: seq<Week>, n: int): seq<GroupVal>
  {
    if weekly == [] then []
    else
      var wk := weekly[|weekly| - 1];
      BucketsAt(name, weekly[..|weekly| - 1], n) + (if wk.weekNum == n then [GroupVal(name, Basic(wk.m))] else [])
  }

  /** The reference list of week `n`: the weekly groups' entries for that week, in group order. */
  function GroupsAt(gws: seq<GroupWeekly>, n: int): seq<GroupVal>
  {
    if gws == [] then []
    else
      var gw := gws[|gws| - 1];
      GroupsAt(gws[..|gws| - 1], n) + BucketsAt(gw.name, gw.weekly, n)
  }

  /** An entry for week `n` is a group's bucket numbered `n`. */
  lemma {:induction false} BucketsAtMembers(name: string, weekly: seq<Week>, n: int, g: GroupVal)
    ensures g in BucketsAt(name, weekly, n) <==>
      exists wk :: wk in weekly && wk.weekNum == n && g == GroupVal(name, Basic(wk.m))
  {
    if weekly != [] {
      var init := weekly[..|weekly| - 1];
      BucketsAtMembers(name, init, n, g);
      assert weekly == init + [weekly[|weekly| - 1]];
    }
  }

  /** With week numbers strictly ascending, as `groupByWeek` yields them, a group has at most one entry per week. */
  lemma {:induction false} BucketsAtOnce(name: string, weekly: seq<Week>, n: int)
    requires forall i, j :: 0 <= i < j < |weekly| ==> weekly[i].weekNum < weekly[j].weekNum
    ensures |BucketsAt(name, weekly, n)| <= 1
    ensures |BucketsAt(name, weekly, n)| == 1 <==> exists wk :: wk in weekly && wk.weekNum == n
  {
    if weekly != [] {
      var init := weekly[..|weekly| - 1];
      var last := weekly[|weekly| - 1];
      BucketsAtOnce(name, init, n);
      if last.weekNum == n {
        forall wk | wk in init ensures wk.weekNum != n {
          var i :| 0 <= i < |init| && init[i] == wk;
          assert weekly[i].weekNum < last.weekNum;
        }
        assert last in weekly;
      } else {
        forall wk | wk in weekly && wk.weekNum == n ensures wk in init {
          InInit(weekly, wk);
        }
        forall wk | wk in init ensures wk in weekly {
          InInit(weekly, wk);
        }
      }
    }
  }

  /** An entry of week `n` is some weekly group's bucket numbered `n`. */
  lemma {:induction false} GroupsAtMembers(gws: seq<GroupWeekly>, n: int, g: GroupVal)
    ensures g in GroupsAt(gws, n) <==>
      exists gw, wk :: gw in gws && wk in gw.weekly && wk.weekNum == n && g == GroupVal(gw.name, Basic(wk.m))
  {
    if gws != [] {
      var init := gws[..|gws| - 1];
      var last := gws[|gws| - 1];
      GroupsAtMembers(init, n, g);
      BucketsAtMembers(last.name, last.weekly, n, g);
      assert gws == init + [last];
    }
  }

  function ListAt(m: map<int, seq<GroupVal>>, n: int): seq<GroupVal>
  {
    if n in m then m[n] else []
  }

  lemma GroupsAtStep(gws: seq<GroupWeekly>, i: nat)
    requires i < |gws|
    ensures forall n :: GroupsAt(gws[..i + 1], n) == GroupsAt(gws[..i], n) + BucketsAt(gws[i].name, gws[i].weekly, n)
  {
    assert gws[..i + 1][..i] == gws[..i];
  }

  lemma BucketsAtStep(name: string, weekly: seq<Week>, j: nat)
    requires j < |weekly|
    ensures forall n :: BucketsAt(name, weekly[..j + 1], n) == BucketsAt(name, weekly[..j], n) +
                          (if weekly[j].weekNum == n then [GroupVal(name, Basic(weekly[j].m))] else [])
  {
    assert weekly[..j + 1][..j] == weekly[..j];
  }

  ghost predicate Pushed(m': map<int, seq<GroupVal>>, m: map<int, seq<GroupVal>>, name: string, weekly: seq<Week>)
  {
    forall n :: ListAt(m', n) == ListAt(m, n) + BucketsAt(name, weekly, n)
  }

  lemma PushStep(m': map<int, seq<GroupVal>>, m: map<int, seq<GroupVal>>, name: string, weekly: seq<Week>, j: nat)
    requires j < |weekly| && Pushed(m', m, name, weekly[..j])
    ensures var wk := weekly[j];
      Pushed(m'[wk.weekNum := ListAt(m', wk.weekNum) + [GroupVal(name, Basic(wk.m))]], m, name, weekly[..j + 1])
  {
    var wk := weekly[j];
    var g := GroupVal(name, Basic(wk.m));
    var m1 := m'[wk.weekNum := ListAt(m', wk.weekNum) + [g]];
    BucketsAtStep(name, weekly, j);
    forall n ensures ListAt(m1, n) == ListAt(m, n) + BucketsAt(name, weekly[..j + 1], n) {
      var a, b := ListAt(m, n), BucketsAt(name, weekly[..j], n);
      if n == wk.weekNum {
        assert ListAt(m1, n) == (a + b) + [g];
        assert (a + b) + [g] == a + (b + [g]);
      } else {
        assert ListAt(m1, n) == ListAt(m', n);
        assert b + [] == b;
      }
    }
  }

  /** One weekly group's buckets, each pushed onto the list of its week number. */
  method PushBuckets(m: map<int, seq<GroupVal>>, name: string, weekly: seq<Week>) returns (m': map<int, seq<GroupVal>>)
    ensures forall n :: ListAt(m', n) == ListAt(m, n) + BucketsAt(name, weekly, n)
  {
    m' := m;
    assert weekly[..0] == [];
    for j := 0 to |weekly|
      invariant Pushed(m', m, name, weekly[..j])
    {
      var wk := weekly[j];
      PushStep(m', m, name, weekly, j);
      m' := m'[wk.weekNum := ListAt(m', wk.weekNum) + [GroupVal(name, Basic(wk.m))]];
    }
    assert weekly[..|weekly|] == weekly;
  }

  /** The lists by week number: every weekly group's buckets pushed in turn. */
  method GroupsByWeekNum(gws: seq<GroupWeekly>) returns (m: map<int, seq<GroupVal>>)
    ensures forall n :: ListAt(m, n) == GroupsAt(gws, n)
  {
    m := map[];
    for i := 0 to |gws|
      invariant forall n :: ListAt(m, n) == GroupsAt(gws[..i], n)
    {
      GroupsAtStep(gws, i);
      m := PushBuckets(m, gws[i].name, gws[i].weekly);
    }
    assert gws[..|gws|] == gws;
  }

  // ---------------------------------------------------------------------
  // Real-time periods
  // ---------------------------------------------------------------------

  /**
   * A bar of the weekly chart: its days, the total, TikTok and Instagram
   * views, likes and comments, whether it is historical, and its groups.
   */
  datatype Period = Period(startDate: Day, endDate: Day, total: Metrics, tiktok: Metrics, instagram: Metrics,
                           isHistorical: bool, groups: seq<GroupVal>)

  /** A platform's bucket of week `n` (the last one of that number), or zero counters. */
  function PlatformAt(weeks: seq<Week>, n: int): Metrics
  {
    var w := LastBy(weeks, WeekNum, n);
    if w.Some? then Basic(w.value.m) else Zero
  }

  /** The real-time period of a week of the total. */
  function PeriodOf(w: Week, tt: seq<Week>, ig: seq<Week>, gws: seq<GroupWeekly>): Period
  {
    Period(w.startDate, w.endDate, Basic(w.m), PlatformAt(tt, w.weekNum), PlatformAt(ig, w.weekNum), false,
           GroupsAt(gws, w.weekNum))
  }

  /** The reference real-time periods: in order, the weeks of the total overlapping the range. */
  function WeekPeriods(total: seq<Week>, tt: seq<Week>, ig: seq<Week>, gws: seq<GroupWeekly>,
                       start: Day, end: Day): seq<Period>
  {
    if total == [] then []
    else
      var w := total[|total| - 1];
      WeekPeriods(total[..|total| - 1], tt, ig, gws, start, end) +
        (if Overlaps(w.startDate, w.endDate, start, end) then [PeriodOf(w, tt, ig, gws)] else [])
  }

  /** A real-time period is the period of a week of the total that overlaps the range. */
  lemma {:induction false} WeekPeriodsMembers(total: seq<Week>, tt: seq<Week>, ig: seq<Week>, gws: seq<GroupWeekly>,
                                              start: Day, end: Day, p: Period)
    ensures p in WeekPeriods(total, tt, ig, gws, start, end) <==>
      exists w :: w in total && Overlaps(w.startDate, w.endDate, start, end) && p == PeriodOf(w, tt, ig, gws)
  {
    if total != [] {
      var init := total[..|total| - 1];
      WeekPeriodsMembers(init, tt, ig, gws, start, end, p);
      assert total == init + [total[|total| - 1]];
    }
  }

  predicate StartsAscending(ps: seq<Period>)
  {
    forall i, j :: 0 <= i < j < |ps| ==> ps[i].startDate < ps[j].startDate
  }

  /** Weeks in ascending order give periods in strictly ascending order of start. */
  lemma {:induction false} WeekPeriodsAscending(total: seq<Week>, tt: seq<Week>, ig: seq<Week>, gws: seq<GroupWeekly>,
                                                start: Day, end: Day)
    requires forall i, j :: 0 <= i < j < |total| ==> total[i].startDate < total[j].startDate
    ensures StartsAscending(WeekPeriods(total, tt, ig, gws, start, end))
  {
    if total != [] {
      var init := total[..|total| - 1];
      var w := total[|total| - 1];
      WeekPeriodsAscending(init, tt, ig, gws, start, end);
      var ps := WeekPeriods(init, tt, ig, gws, start, end);
      forall p | p in ps ensures p.startDate < w.startDate {
        WeekPeriodsMembers(init, tt, ig, gws, start, end, p);
        var v :| v in init && Overlaps(v.startDate, v.endDate, start, end) && p == PeriodOf(v, tt, ig, gws);
        var i :| 0 <= i < |init| && init[i] == v;
        assert total[i] == v;
      }
      var tail := if Overlaps(w.startDate, w.endDate, start, end) then [PeriodOf(w, tt, ig, gws)] else [];
      var ps' := WeekPeriods(total, tt, ig, gws, start, end);
      assert ps' == ps + tail;
      forall i, j | 0 <= i < j < |ps'| ensures ps'[i].startDate < ps'[j].startDate {
        if j >= |ps| {
          assert ps'[i] == ps[i] && ps[i] in ps;
          assert ps'[j] == PeriodOf(w, tt, ig, gws);
        } else {
          assert ps'[i] == ps[i] && ps'[j] == ps[j];
          assert ps[i].startDate < ps[j].startDate;
        }
      }
    }
  }

  lemma WeekPeriodsStep(total: seq<Week>, tt: seq<Week>, ig: seq<Week>, gws: seq<GroupWeekly>,
                        start: Day, end: Day, i: nat)
    requires i < |total|
    ensures var w := total[i];
      WeekPeriods(total[..i + 1], tt, ig, gws, start, end) == WeekPeriods(total[..i], tt, ig, gws, start, end) +
        (if Overlaps(w.startDate, w.endDate, start, end) then [PeriodOf(w, tt, ig, gws)] else [])
  {
    assert total[..i + 1][..i] == total[..i];
  }

  /** The period the loop builds from the three lookup maps is the week's reference period. */
  lemma PeriodFromMaps(w: Week, tt: seq<Week>, ig: seq<Week>, gws: seq<GroupWeekly>,
                       ttBy: map<int, Week>, igBy: map<int, Week>, groupsBy: map<int, seq<GroupVal>>)
    requires forall k :: LastBy(tt, WeekNum, k) == if k in ttBy then Some(ttBy[k]) else None
    requires forall k :: LastBy(ig, WeekNum, k) == if k in igBy then Some(igBy[k]) else None
    requires forall n :: ListAt(groupsBy, n) == GroupsAt(gws, n)
    ensures Period(w.startDate, w.endDate, Basic(w.m),
                   if w.weekNum in ttBy then Basic(ttBy[w.weekNum].m) else Zero,
                   if w.weekNum in igBy then Basic(igBy[w.weekNum].m) else Zero,
                   false, ListAt(groupsBy, w.weekNum)) == PeriodOf(w, tt, ig, gws)
  {
    assert LastBy(tt, WeekNum, w.weekNum) == if w.weekNum in ttBy then Some(ttBy[w.weekNum]) else None;
    assert LastBy(ig, WeekNum, w.weekNum) == if w.weekNum in igBy then Some(igBy[w.weekNum]) else None;
    assert ListAt(groupsBy, w.weekNum) == GroupsAt(gws, w.weekNum);
  }

  /** The loop that pushes a period for every week of the total overlapping the range. */
  method RealtimePeriods(total: seq<Week>, tt: seq<Week>, ig: seq<Week>, gws: seq<GroupWeekly>,
                         start: Day, end: Day)
    returns (ps: seq<Period>)
    ensures ps == WeekPeriods(total, tt, ig, gws, start, end)
  {
    var ttBy, _ := IndexBy(tt, WeekNum);
    var igBy, _ := IndexBy(ig, WeekNum);
    var groupsBy := GroupsByWeekNum(gws);
    ps := [];
    for i := 0 to |total|
      invariant ps == WeekPeriods(total[..i], tt, ig, gws, start, end)
    {
      var w := total[i];
      WeekPeriodsStep(total, tt, ig, gws, start, end, i);
      var ttData := if w.weekNum in ttBy then Basic(ttBy[w.weekNum].m) else Zero;
      var igData := if w.weekNum in igBy then Basic(igBy[w.weekNum].m) else Zero;
      if Overlaps(w.startDate, w.endDate, start, end) {
        PeriodFromMaps(w, tt, ig, gws, ttBy, igBy, groupsBy);
        ps := ps + [Period(w.startDate, w.endDate, Basic(w.m), ttData, igData, false, ListAt(groupsBy, w.weekNum))];
      }
    }
    assert total[..|total|] == total;
  }

  /**
   * The reference periods of the weekly view before merging: none when no
   * day of the total is real-time, otherwise the real-time periods of the
   * weekly total, TikTok, Instagram and group buckets.
   */
  function ViewPeriods(data: SeriesData, platform: Platform, start: Day, end: Day): seq<Period>
  {
    var rt := Realtime(data.total);
    if rt == [] then []
    else
      WeekPeriods(Weekly(rt, RealtimeStart), Weekly(Realtime(OrEmpty(data.totalTikTok)), RealtimeStart),
                  Weekly(Realtime(OrEmpty(data.totalInstagram)), RealtimeStart),
                  WeeklyGroups(data.groups, platform), start, end)
  }

  /** Steps 1 and 2 of the weekly view: the real-time data bucketed and turned into periods. */
  method WeeklyPeriods(data: SeriesData, platform: Platform, start: Day, end: Day) returns (ps: seq<Period>)
    ensures ps == ViewPeriods(data, platform, start, end)
  {
    ps := [];
    var realtimeData := Realtime(data.total);
    var realtimeTT := Realtime(OrEmpty(data.totalTikTok));
    var realtimeIG := Realtime(OrEmpty(data.totalInstagram));
    if |realtimeData| > 0 {
      var weeklyTotal := GroupByWeek(realtimeData, RealtimeStart);
      var weeklyTT := GroupByWeek(realtimeTT, RealtimeStart);
      var weeklyIG := GroupByWeek(realtimeIG, RealtimeStart);
      var gws := GroupsWeekly(data.groups, platform);
      ps := RealtimePeriods(weeklyTotal, weeklyTT, weeklyIG, gws, start, end);
    }
  }

  /** Buckets of entries dated from the week start on have non-negative week numbers. */
  lemma WeeklyFrom(series: seq<Entry>, start: Day, i: nat)
    requires forall e :: e in series ==> e.date >= start
    requires i < |Weekly(series, start)|
    ensures var w := Weekly(series, start)[i];
      w.weekNum >= 0 && w.startDate == start + 7 * w.weekNum && w.endDate == w.startDate + 6
  {
    WeeklyGroup(series, start, i);
    var w := Weekly(series, start)[i];
    var e :| e in series && WeekOf(e.date, start) == w.weekNum;
  }

  /** Periods of seven-day weeks numbered from `from`, ascending, are ascending, real-time and seven days long. */
  lemma {:induction false} WeekPeriodsShape(total: seq<Week>, tt: seq<Week>, ig: seq<Week>, gws: seq<GroupWeekly>,
                                            start: Day, end: Day, from: Day)
    requires forall i :: 0 <= i < |total| ==>
      total[i].weekNum >= 0 && total[i].startDate == from + 7 * total[i].weekNum && total[i].endDate == total[i].startDate + 6
    requires forall i, j :: 0 <= i < j < |total| ==> total[i].weekNum < total[j].weekNum
    ensures var ps := WeekPeriods(total, tt, ig, gws, start, end);
      StartsAscending(ps) &&
      (forall p :: p in ps ==> !p.isHistorical && p.endDate == p.startDate + 6 && p.startDate >= from)
  {
    forall i, j | 0 <= i < j < |total| ensures total[i].startDate < total[j].startDate {
      assert total[i].weekNum < total[j].weekNum;
    }
    WeekPeriodsAscending(total, tt, ig, gws, start, end);
    forall p | p in WeekPeriods(total, tt, ig, gws, start, end)
      ensures !p.isHistorical && p.endDate == p.startDate + 6 && p.startDate >= from
    {
      WeekPeriodsMembers(total, tt, ig, gws, start, end, p);
      var w :| w in total && Overlaps(w.startDate, w.endDate, start, end) && p == PeriodOf(w, tt, ig, gws);
      var i :| 0 <= i < |total| && total[i] == w;
    }
  }

  /** The periods of the weekly view are real-time weeks: ascending, seven days long and not historical. */
  lemma ViewPeriodsAscending(data: SeriesData, platform: Platform, start: Day, end: Day)
    ensures var ps := ViewPeriods(data, platform, start, end);
      StartsAscending(ps) &&
      (forall p :: p in ps ==> !p.isHistorical && p.endDate == p.startDate + 6 && p.startDate >= RealtimeStart)
  {
    var rt := Realtime(data.total);
    if rt != [] {
      var total := Weekly(rt, RealtimeStart);
      forall i | 0 <= i < |total|
        ensures total[i].weekNum >= 0 && total[i].startDate == RealtimeStart + 7 * total[i].weekNum
        ensures total[i].endDate == total[i].startDate + 6
      {
        WeeklyFrom(rt, RealtimeStart, i);
      }
      WeekPeriodsShape(total, Weekly(Realtime(OrEmpty(data.totalTikTok)), RealtimeStart),
                       Weekly(Realtime(OrEmpty(data.totalInstagram)), RealtimeStart),
                       WeeklyGroups(data.groups, platform), start, end, RealtimeStart);
    }
  }
}
