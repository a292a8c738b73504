/**
 * The lines of the weekly chart (src/app/dashboard/page.tsx): each period's
 * value of the chosen metric for the total, each platform and each group,
 * and the posts published within each period.
 */
module WeeklyLines {
  import opened Common
  import opened Days
  import opened Grouping
  import opened Dashboard
  import opened DashboardWeekly
  import opened WeeklyMerge

  /** The chosen metric: likes, comments, or views otherwise. */
  function MetricValue(m: Metrics, metric: Metric): int
  {
    match metric
    case Likes => m.likes
    case Comments => m.comments
    case Views => m.views
  }

  /** The metric of the period's first group entry named `name`, or 0 when it has none. */
  function GroupLineValue(p: Period, name: string, metric: Metric): int
  {
    var g := FirstBy(p.groups, GName, name);
    if g.Some? then MetricValue(g.value.m, metric) else 0
  }

  /**
   * On a merged period a group's line shows the sum of that group's entries
   * merged into it, and 0 exactly when there were none.
   */
  lemma {:induction false} GroupLineOfMerged(p: Period, gs: seq<GroupVal>, name: string, metric: Metric)
    requires p.groups == NameSums(gs)
    ensures GroupLineValue(p, name, metric) == MetricValue(GroupSum(gs, GName, GBasic, name), metric)
  {
    var ns := KeyList(gs, GName);
    NameSumsNames(gs);
    FirstByIsFirst(p.groups, GName, name);
    var g := FirstBy(p.groups, GName, name);
    if g.Some? {
      NameSumsMembers(gs, g.value);
    } else {
      forall x | x in gs ensures GName(x) != name {
        var j :| 0 <= j < |gs| && gs[j] == x;
        assert ns[j] == GName(x);
        var i :| 0 <= i < |Dedup(ns)| && Dedup(ns)[i] == GName(x);
        assert KeyList(p.groups, GName)[i] == GName(x);
      }
      GroupSumAbsent(gs, GName, GBasic, name);
    }
  }

  /** The line of one group of the data: its value at every period. */
  function GroupLine(ps: seq<Period>, name: string, metric: Metric): (vals: seq<int>)
    ensures |vals| == |ps| && forall i :: 0 <= i < |ps| ==> vals[i] == GroupLineValue(ps[i], name, metric)
  {
    seq(|ps|, i requires 0 <= i < |ps| => GroupLineValue(ps[i], name, metric))
  }

  /**
   * In the weekly view a group's line at a period is the sum of that
   * period's group entries of its name: one bucket per weekly group of
   * that name.
   */
  lemma GroupLineView(data: SeriesData, platform: Platform, start: Day, end: Day, name: string, metric: Metric, i: nat)
    requires i < |WeeklyView(data, platform, start, end)|
    ensures var vp := ViewPeriods(data, platform, start, end);
      i < |vp| &&
      GroupLine(WeeklyView(data, platform, start, end), name, metric)[i] ==
        MetricValue(GroupSum(vp[i].groups, GName, GBasic, name), metric)
  {
    WeeklyViewNormal(data, platform, start, end);
    var vp := ViewPeriods(data, platform, start, end);
    GroupLineOfMerged(Normal(vp[i]), vp[i].groups, name, metric);
  }

  // ---------------------------------------------------------------------
  // Posts per period
  // ---------------------------------------------------------------------

  /** The count `postsMap` holds for day `d`, or 0. */
  function PostsOn(postsData: seq<PostsDay>, d: Day): int
  {
    var c := LastPosts(postsData, d);
    if c.Some? then c.value else 0
  }

  /** The counts of the days `ds` that fall in `[lo, hi]`. */
  function RangeSum(ds: seq<Day>, postsData: seq<PostsDay>, lo: Day, hi: Day): int
  {
    if ds == [] then 0
    else
      var d := ds[|ds| - 1];
      RangeSum(ds[..|ds| - 1], postsData, lo, hi) + (if lo <= d <= hi then PostsOn(postsData, d) else 0)
  }

  /** The reference posts of a period: the count of every distinct day of `postsData` within it. */
  function WindowPosts(postsData: seq<PostsDay>, lo: Day, hi: Day): int
  {
    RangeSum(Dedup(KeyList(postsData, PostsDate)), postsData, lo, hi)
  }

  lemma {:induction false} RangeSumStep(ds: seq<Day>, postsData: seq<PostsDay>, lo: Day, hi: Day, j: nat)
    requires j < |ds|
    ensures RangeSum(ds[..j + 1], postsData, lo, hi) ==
              RangeSum(ds[..j], postsData, lo, hi) + (if lo <= ds[j] <= hi then PostsOn(postsData, ds[j]) else 0)
  {
    assert ds[..j + 1][..j] == ds[..j];
  }

  /** The counts of the posts map's days within `[lo, hi]`, summed in the map's order. */
  method PeriodPosts(m: map<Day, int>, order: seq<Day>, ghost postsData: seq<PostsDay>, lo: Day, hi: Day)
    returns (sum: int)
    requires m.Keys == Elems(order)
    requires forall d :: d in m ==> LastPosts(postsData, d) == Some(m[d])
    ensures sum == RangeSum(order, postsData, lo, hi)
  {
    sum := 0;
    for j := 0 to |order|
      invariant sum == RangeSum(order[..j], postsData, lo, hi)
    {
      var d := order[j];
      RangeSumStep(order, postsData, lo, hi, j);
      assert d in Elems(order);
      if lo <= d && d <= hi {
        sum := sum + m[d];
      }
    }
    assert order[..|order|] == order;
  }

  /**
   * The posts line: none unless posts are shown and there are posts,
   * otherwise for every period the posts within its days.
   */
  method PostsLine(showPosts: bool, postsData: seq<PostsDay>, periods: seq<Period>) returns (line: Option<seq<int>>)
    ensures line.Some? <==> showPosts && |postsData| > 0
    ensures line.Some? ==> |line.value| == |periods| &&
                           forall i :: 0 <= i < |periods| ==> line.value[i] == WindowPosts(postsData, periods[i].startDate, periods[i].endDate)
  {
    line := None;
    if showPosts && |postsData| > 0 {
      var m, order := PostsMap(postsData);
      var vals := [];
      for i := 0 to |periods|
        invariant |vals| == i
        invariant forall k :: 0 <= k < i ==> vals[k] == WindowPosts(postsData, periods[k].startDate, periods[k].endDate)
      {
        var sum := PeriodPosts(m, order, postsData, periods[i].startDate, periods[i].endDate);
        vals := vals + [sum];
      }
      line := Some(vals);
    }
  }

  lemma {:induction false} RangeSumSplit(ds: seq<Day>, postsData: seq<PostsDay>, lo: Day, mid: Day, hi: Day)
    requires lo <= mid < hi
    ensures RangeSum(ds, postsData, lo, mid) + RangeSum(ds, postsData, mid + 1, hi) == RangeSum(ds, postsData, lo, hi)
  {
    if ds != [] {
      RangeSumSplit(ds[..|ds| - 1], postsData, lo, mid, hi);
    }
  }

  /** The posts of two adjacent periods add up to the posts of both together. */
  lemma WindowPostsSplit(postsData: seq<PostsDay>, lo: Day, mid: Day, hi: Day)
    requires lo <= mid < hi
    ensures WindowPosts(postsData, lo, mid) + WindowPosts(postsData, mid + 1, hi) == WindowPosts(postsData, lo, hi)
  {
    RangeSumSplit(Dedup(KeyList(postsData, PostsDate)), postsData, lo, mid, hi);
  }

  /** The entries of `postsData` dated within `[lo, hi]`. */
  function InWindow(postsData: seq<PostsDay>, lo: Day, hi: Day): seq<PostsDay>
  {
    if postsData == [] then []
    else
      var p := postsData[|postsData| - 1];
      InWindow(postsData[..|postsData| - 1], lo, hi) + (if lo <= p.date <= hi then [p] else [])
  }

  /** Without repeated days, the count of an entry's day is that entry's count. */
  lemma PostsOnDistinct(postsData: seq<PostsDay>, n: nat)
    requires n < |postsData| && Distinct(KeyList(postsData, PostsDate))
    ensures PostsOn(postsData, postsData[n].date) == Val(postsData[n].posts)
  {
    var ks := KeyList(postsData, PostsDate);
    var p := postsData[n];
    LastPostsIsLast(postsData, p.date);
    var i :| 0 <= i < |postsData| && LastPosts(postsData, p.date).value == Val(postsData[i].posts) &&
      postsData[i].date == p.date && forall j :: i < j < |postsData| ==> postsData[j].date != p.date;
    assert ks[i] == ks[n];
  }

  lemma InWindowStep(postsData: seq<PostsDay>, n: nat, lo: Day, hi: Day)
    requires 0 < n <= |postsData|
    ensures var p := postsData[n - 1];
      TotalPosts(InWindow(postsData[..n], lo, hi)) ==
        TotalPosts(InWindow(postsData[..n - 1], lo, hi)) + (if lo <= p.date <= hi then Val(p.posts) else 0)
  {
    assert postsData[..n][..n - 1] == postsData[..n - 1];
    var p := postsData[n - 1];
    var rest := InWindow(postsData[..n - 1], lo, hi);
    if lo <= p.date <= hi {
      TotalPostsAppend(rest, [p]);
      assert TotalPosts([p]) == Val(p.posts) by {
        assert [p][..0] == [];
      }
    } else {
      assert rest + [] == rest;
    }
  }

  lemma {:induction false} RangeSumPrefix(postsData: seq<PostsDay>, n: nat, lo: Day, hi: Day)
    requires n <= |postsData|
    requires Distinct(KeyList(postsData, PostsDate))
    ensures RangeSum(KeyList(postsData, PostsDate)[..n], postsData, lo, hi) == TotalPosts(InWindow(postsData[..n], lo, hi))
  {
    var ks := KeyList(postsData, PostsDate);
    if n > 0 {
      RangeSumPrefix(postsData, n - 1, lo, hi);
      assert ks[..n][..n - 1] == ks[..n - 1];
      InWindowStep(postsData, n, lo, hi);
      PostsOnDistinct(postsData, n - 1);
    }
  }

  /**
   * When no day occurs twice in `postsData` a period's posts are the total
   * of the entries dated within it.
   */
  lemma WindowPostsDistinct(postsData: seq<PostsDay>, lo: Day, hi: Day)
    requires Distinct(KeyList(postsData, PostsDate))
    ensures WindowPosts(postsData, lo, hi) == TotalPosts(InWindow(postsData, lo, hi))
  {
    var ks := KeyList(postsData, PostsDate);
    DedupDistinct(ks);
    RangeSumPrefix(postsData, |postsData|, lo, hi);
    assert ks[..|postsData|] == ks;
    assert postsData[..|postsData|] == postsData;
  }
}
