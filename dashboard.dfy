/**
 * The roll-ups of the dashboard page over the series it receives: platform
 * totals summed per date across groups, the accrual zero mask up to the
 * cutoff with the header totals recomputed from it, the posts total, and the
 * alignment of a group's values to the dates of the total series.
 */
module Dashboard {
  import opened Common
  import opened Days
  import opened Grouping
  import AnalyticsSeries

  /**
   * A counter field of a chart entry: `None` when the field is absent,
   * `Some(n)` when it is present (with `n` itself `None` when its value is
   * null or not numeric).
   */
  type Field = Option<Num>

  /** A field's counter: absent, null and non-numeric read as 0. */
  function FieldVal(f: Field): int
  {
    if f.Some? then Val(f.value) else 0
  }

  /** A dated entry of a chart series (`total`, `series_tiktok`, ...). */
  datatype Entry = Entry(date: Day, views: Field, likes: Field, comments: Field, shares: Field, saves: Field)

  function EntryDate(e: Entry): Day
  {
    e.date
  }

  /** The counters of an entry; shares and saves only where the caller picks them. */
  function EntryMetrics(e: Entry, withSharesSaves: bool): Metrics
  {
    Metrics(FieldVal(e.views), FieldVal(e.likes), FieldVal(e.comments),
            if withSharesSaves then FieldVal(e.shares) else 0,
            if withSharesSaves then FieldVal(e.saves) else 0)
  }

  function Pick(withSharesSaves: bool): Entry -> Metrics
  {
    (e: Entry) => EntryMetrics(e, withSharesSaves)
  }

  ghost predicate HasDate(rows: seq<Entry>, d: Day)
  {
    exists e :: e in rows && e.date == d
  }

  // ---------------------------------------------------------------------
  // sumByDate: platform totals derived from the groups' series.
  // ---------------------------------------------------------------------

  /**
   * `sumByDate`: one point per distinct date of all arrays, ascending, each
   * the sum of the entries with that date. The TikTok pick carries shares and
   * saves, the Instagram pick does not (its shares and saves are not numbers).
   */
  method SumByDate(arrs: seq<seq<Entry>>, withSharesSaves: bool) returns (r: seq<Point>)
    ensures r == SortedSums(Flatten(arrs), EntryDate, Pick(withSharesSaves))
    ensures forall i, j :: 0 <= i < j < |r| ==> r[i].date < r[j].date
    ensures forall p :: p in r <==>
      HasDate(Flatten(arrs), p.date) && p.m == GroupSum(Flatten(arrs), EntryDate, Pick(withSharesSaves), p.date)
    ensures Total(MetricsOf(r)) == TotalOf(Flatten(arrs), Pick(withSharesSaves))
  {
    var acc: map<Day, Metrics> := map[];
    var order: seq<Day> := [];
    for g := 0 to |arrs|
      invariant Grouped(acc, order, Flatten(arrs[..g]), EntryDate, Pick(withSharesSaves))
    {
      FlattenSnoc(arrs, g);
      acc, order := GroupInto(acc, order, Flatten(arrs[..g]), arrs[g], EntryDate, Pick(withSharesSaves));
    }
    assert arrs[..|arrs|] == arrs;
    GroupedListing(acc, order, Flatten(arrs), EntryDate, Pick(withSharesSaves));
    r := SortedGroups(acc, order);
    SortedSumsTotal(Flatten(arrs), EntryDate, Pick(withSharesSaves));
    forall p ensures p in r <==>
      HasDate(Flatten(arrs), p.date) && p.m == GroupSum(Flatten(arrs), EntryDate, Pick(withSharesSaves), p.date)
    {
      SortedSumsMembers(Flatten(arrs), EntryDate, Pick(withSharesSaves), p);
    }
  }

  // ---------------------------------------------------------------------
  // zeroBefore and the header totals (accrual mode).
  // ---------------------------------------------------------------------

  /**
   * An element of a series array: an object, or a value that is not one (a
   * number, a string, or null, which `zeroBefore` passes through unchanged).
   */
  datatype Item = Obj(e: Entry) | Other

  /** A field set to 0 when it is present, left absent otherwise. */
  function ZeroField(f: Field): (z: Field)
    ensures z.Some? == f.Some? && (z.Some? ==> FieldVal(z) == 0)
  {
    if f.Some? then Some(Some(0)) else None
  }

  function ZeroEntry(e: Entry): Entry
  {
    Entry(e.date, ZeroField(e.views), ZeroField(e.likes), ZeroField(e.comments),
          ZeroField(e.shares), ZeroField(e.saves))
  }

  /** `zeroBefore`: objects dated on or before the cutoff have their present counters set to 0. */
  function ZeroBefore(arr: seq<Item>, cutoff: Day): (r: seq<Item>)
    ensures |r| == |arr|
  {
    seq(|arr|, i requires 0 <= i < |arr| =>
      if arr[i].Obj? && arr[i].e.date <= cutoff then Obj(ZeroEntry(arr[i].e)) else arr[i])
  }

  /**
   * Order and length are kept; non-objects and objects after the cutoff are
   * unchanged; an object on or before it keeps its date and exactly its
   * present fields, all zero.
   */
  lemma ZeroBeforeEffect(arr: seq<Item>, cutoff: Day, i: nat)
    requires i < |arr|
    ensures var r := ZeroBefore(arr, cutoff)[i];
      (arr[i].Other? || arr[i].e.date > cutoff ==> r == arr[i]) &&
      (arr[i].Obj? && arr[i].e.date <= cutoff ==>
        r.Obj? && r.e.date == arr[i].e.date &&
        (r.e.views.Some? <==> arr[i].e.views.Some?) && (r.e.likes.Some? <==> arr[i].e.likes.Some?) &&
        (r.e.comments.Some? <==> arr[i].e.comments.Some?) && (r.e.shares.Some? <==> arr[i].e.shares.Some?) &&
        (r.e.saves.Some? <==> arr[i].e.saves.Some?) &&
        EntryMetrics(r.e, true) == Zero)
  {
  }

  lemma ZeroBeforeIdempotent(arr: seq<Item>, cutoff: Day)
    ensures ZeroBefore(ZeroBefore(arr, cutoff), cutoff) == ZeroBefore(arr, cutoff)
  {
  }

  /** The dated points of a series of objects. */
  function ItemPoints(arr: seq<Item>): (ps: seq<Point>)
    requires forall it :: it in arr ==> it.Obj?
    ensures |ps| == |arr|
  {
    seq(|arr|, i requires 0 <= i < |arr| => assert arr[i] in arr; Point(arr[i].e.date, EntryMetrics(arr[i].e, true)))
  }

  /**
   * On a series of objects the dashboard's `zeroBefore` (on or before the
   * cutoff) is the series route's `mask` (strictly before) with the day after.
   */
  lemma ZeroBeforeIsMask(arr: seq<Item>, cutoff: Day)
    requires forall it :: it in arr ==> it.Obj?
    ensures forall it :: it in ZeroBefore(arr, cutoff) ==> it.Obj?
    ensures ItemPoints(ZeroBefore(arr, cutoff)) == AnalyticsSeries.Mask(ItemPoints(arr), cutoff + 1)
  {
    var z := ZeroBefore(arr, cutoff);
    forall it | it in z ensures it.Obj? {
      var i :| 0 <= i < |z| && z[i] == it;
      assert arr[i] in arr;
    }
    forall i | 0 <= i < |arr|
      ensures ItemPoints(z)[i] == AnalyticsSeries.Mask(ItemPoints(arr), cutoff + 1)[i]
    {
      assert arr[i] in arr && z[i] in z;
    }
  }

  /**
   * An element's counters, each missing one read as 0: a non-object carries
   * no counters (the source's `sumSeries` throws on a null element instead).
   */
  function ItemMetrics(it: Item): Metrics
  {
    if it.Obj? then EntryMetrics(it.e, false) else Zero
  }

  /** `sumSeries`: views, likes and comments summed over a series. */
  function SumSeries(arr: seq<Item>): Metrics
  {
    if arr == [] then Zero else Add(SumSeries(arr[..|arr| - 1]), ItemMetrics(arr[|arr| - 1]))
  }

  /** Summing a series in two parts and adding the two sums is summing it whole. */
  lemma {:induction false} SumSeriesAppend(a: seq<Item>, b: seq<Item>)
    ensures SumSeries(a + b) == Add(SumSeries(a), SumSeries(b))
    decreases |b|
  {
    if b == [] {
      assert a + b == a;
    } else {
      assert (a + b)[..|a + b| - 1] == a + b[..|b| - 1];
      SumSeriesAppend(a, b[..|b| - 1]);
    }
  }

  /** The objects dated after the cutoff. */
  function After(arr: seq<Item>, cutoff: Day): (r: seq<Item>)
    ensures forall it :: it in r <==> it in arr && it.Obj? && it.e.date > cutoff
  {
    if arr == [] then []
    else
      var last := arr[|arr| - 1];
      After(arr[..|arr| - 1], cutoff) + (if last.Obj? && last.e.date > cutoff then [last] else [])
  }

  /**
   * The header totals recomputed from the masked `total` series are the sums
   * over its objects dated after the cutoff.
   */
  lemma {:induction false} HeaderTotals(arr: seq<Item>, cutoff: Day)
    ensures SumSeries(ZeroBefore(arr, cutoff)) == SumSeries(After(arr, cutoff))
  {
    if arr != [] {
      var init := arr[..|arr| - 1];
      var last := arr[|arr| - 1];
      var z := ZeroBefore(arr, cutoff);
      assert z[..|arr| - 1] == ZeroBefore(init, cutoff);
      HeaderTotals(init, cutoff);
      if last.Obj? && last.e.date > cutoff {
        var a := After(init, cutoff);
        assert (a + [last])[..|a + [last]| - 1] == a;
      } else {
        assert ItemMetrics(z[|arr| - 1]) == Zero;
        assert SumSeries(z) == Add(SumSeries(ZeroBefore(init, cutoff)), Zero);
        AddZero(SumSeries(After(init, cutoff)));
        assert After(arr, cutoff) == After(init, cutoff) + [];
        assert After(init, cutoff) + [] == After(init, cutoff);
      }
    }
  }

  // ---------------------------------------------------------------------
  // Posts: the header total and the per-date lookup.
  // ---------------------------------------------------------------------

  /** An entry of `postsData`. */
  datatype PostsDay = PostsDay(date: Day, posts: Num)

  /** The posts of all entries summed, a missing count read as 0. */
  function TotalPosts(postsData: seq<PostsDay>): int
  {
    if postsData == [] then 0
    else TotalPosts(postsData[..|postsData| - 1]) + Val(postsData[|postsData| - 1].posts)
  }

  lemma {:induction false} TotalPostsAppend(a: seq<PostsDay>, b: seq<PostsDay>)
    ensures TotalPosts(a + b) == TotalPosts(a) + TotalPosts(b)
    decreases |b|
  {
    if b == [] {
      assert a + b == a;
    } else {
      assert (a + b)[..|a + b| - 1] == a + b[..|b| - 1];
      TotalPostsAppend(a, b[..|b| - 1]);
    }
  }

  /** The total of non-negative daily counts is non-negative and at least each day's count. */
  lemma {:induction false} TotalPostsBounds(postsData: seq<PostsDay>, i: nat)
    requires forall p :: p in postsData ==> Val(p.posts) >= 0
    requires i < |postsData|
    ensures Val(postsData[i].posts) <= TotalPosts(postsData)
    ensures TotalPosts(postsData[..i]) >= 0
  {
    var init := postsData[..|postsData| - 1];
    if i < |init| {
      forall p | p in init ensures Val(p.posts) >= 0 { assert p in postsData; }
      TotalPostsBounds(init, i);
      assert postsData[..i] == init[..i];
    } else {
      assert postsData[..i] == init;
      if init != [] { TotalPostsBounds(init, |init| - 1); }
    }
  }

  function PostsDate(p: PostsDay): Day
  {
    p.date
  }

  /** The count the posts map keeps for day `d`: the last entry of that day wins. */
  function LastPosts(postsData: seq<PostsDay>, d: Day): Option<int>
  {
    var p := LastBy(postsData, PostsDate, d);
    if p.Some? then Some(Val(p.value.posts)) else None
  }

  /** `LastPosts` is the count of the last entry with that date, and `None` exactly when there is none. */
  lemma LastPostsIsLast(postsData: seq<PostsDay>, d: Day)
    ensures LastPosts(postsData, d).None? <==> forall i :: 0 <= i < |postsData| ==> postsData[i].date != d
    ensures LastPosts(postsData, d).Some? ==>
      exists i :: 0 <= i < |postsData| && postsData[i].date == d &&
        LastPosts(postsData, d).value == Val(postsData[i].posts) &&
        forall k :: i < k < |postsData| ==> postsData[k].date != d
  {
    LastByIsLast(postsData, PostsDate, d);
    var ks := KeyList(postsData, PostsDate);
    if d in ks {
      var i :| 0 <= i < |ks| && ks[i] == d;
      assert postsData[i].date == d;
    }
  }

  /** `postsMap`: the `forEach` of `set`s, with the dates in insertion order. */
  method PostsMap(postsData: seq<PostsDay>) returns (m: map<Day, int>, order: seq<Day>)
    ensures order == Dedup(KeyList(postsData, PostsDate)) && m.Keys == Elems(order)
    ensures forall d :: d in m <==> LastPosts(postsData, d).Some?
    ensures forall d :: d in m ==> m[d] == LastPosts(postsData, d).value
  {
    var idx;
    idx, order := IndexBy(postsData, PostsDate);
    m := map d | d in idx :: Val(idx[d].posts);
  }

  // ---------------------------------------------------------------------
  // Daily view: a group's values aligned to the total series.
  // ---------------------------------------------------------------------

  /** The counter a chart line shows. */
  datatype Metric = Views | Likes | Comments

  /** The chosen metric of an entry: likes, comments, or views otherwise. */
  function MetricOf(e: Entry, metric: Metric): int
  {
    match metric
    case Likes => FieldVal(e.likes)
    case Comments => FieldVal(e.comments)
    case Views => FieldVal(e.views)
  }

  /** The value a group's line shows at day `d`: its last entry of that date, else 0. */
  function AlignedValue(group: seq<Entry>, d: Day, metric: Metric): int
  {
    var it := LastBy(group, EntryDate, d);
    if it.Some? then MetricOf(it.value, metric) else 0
  }

  /**
   * The daily view's group line: the `forEach` fills a date map, then every
   * date of the total series reads it, with 0 for a date the group lacks.
   */
  method AlignToTotal(total: seq<Entry>, group: seq<Entry>, metric: Metric) returns (vals: seq<int>)
    ensures |vals| == |total|
    ensures forall i :: 0 <= i < |total| ==> vals[i] == AlignedValue(group, total[i].date, metric)
  {
    var m, _ := IndexBy(group, EntryDate);
    vals := seq(|total|, i requires 0 <= i < |total| =>
      if total[i].date in m then MetricOf(m[total[i].date], metric) else 0);
  }

  /** A date the group has no entry for shows 0; otherwise it shows the group's last entry there. */
  lemma AlignedValueMeaning(group: seq<Entry>, d: Day, metric: Metric)
    ensures !HasDate(group, d) ==> AlignedValue(group, d, metric) == 0
    ensures HasDate(group, d) ==>
      exists i :: 0 <= i < |group| && group[i].date == d &&
        AlignedValue(group, d, metric) == MetricOf(group[i], metric) &&
        forall k :: i < k < |group| ==> group[k].date != d
  {
    LastByIsLast(group, EntryDate, d);
    var ks := KeyList(group, EntryDate);
    if HasDate(group, d) {
      var e :| e in group && e.date == d;
      var i :| 0 <= i < |group| && group[i] == e;
      assert ks[i] == d;
    }
    if d in ks {
      var i :| 0 <= i < |ks| && ks[i] == d;
      assert group[i] in group;
    }
  }

  // ---------------------------------------------------------------------
  // The platform filter and the daily view's series choices.
  // ---------------------------------------------------------------------

  datatype Platform = AllPlatforms | TikTokOnly | InstagramOnly

  /** A group of the series response: its combined series and the per-platform series it carries. */
  datatype Group = Group(name: string, series: seq<Entry>, seriesTikTok: Option<seq<Entry>>,
                         seriesInstagram: Option<seq<Entry>>)

  /** The series response: `total` (absent reads as empty), the per-platform totals and the groups. */
  datatype SeriesData = SeriesData(total: seq<Entry>, totalTikTok: Option<seq<Entry>>,
                                   totalInstagram: Option<seq<Entry>>, groups: seq<Group>)

  function OrEmpty(s: Option<seq<Entry>>): seq<Entry>
  {
    if s.Some? then s.value else []
  }

  /**
   * The series a group's line uses: the platform's own array when the filter
   * names that platform and the group has the array (an empty array counts),
   * otherwise the combined series.
   */
  function GroupSeries(g: Group, platform: Platform): (s: seq<Entry>)
    ensures platform == AllPlatforms ==> s == g.series
    ensures s == g.series || g.seriesTikTok == Some(s) || g.seriesInstagram == Some(s)
    ensures platform == TikTokOnly && g.seriesTikTok.Some? ==> s == g.seriesTikTok.value
    ensures platform == InstagramOnly && g.seriesInstagram.Some? ==> s == g.seriesInstagram.value
  {
    if platform == TikTokOnly && g.seriesTikTok.Some? then g.seriesTikTok.value
    else if platform == InstagramOnly && g.seriesInstagram.Some? then g.seriesInstagram.value
    else g.series
  }

  /**
   * The daily view's total series: the platform's own total when the filter
   * names that platform and the array is non-empty, otherwise the combined
   * total.
   */
  function TotalSeries(data: SeriesData, platform: Platform): (s: seq<Entry>)
    ensures platform == AllPlatforms ==> s == data.total
    ensures s == data.total || (|s| > 0 && (data.totalTikTok == Some(s) || data.totalInstagram == Some(s)))
    ensures s == [] ==> data.total == []
  {
    if platform == TikTokOnly && data.totalTikTok.Some? && |data.totalTikTok.value| > 0 then data.totalTikTok.value
    else if platform == InstagramOnly && data.totalInstagram.Some? && |data.totalInstagram.value| > 0 then data.totalInstagram.value
    else data.total
  }

  /**
   * The two choices differ on an empty platform array: the total falls back
   * to the combined series, a group keeps its empty platform series.
   */
  lemma EmptyPlatformArray(data: SeriesData, g: Group)
    requires data.totalTikTok == Some([]) && g.seriesTikTok == Some([])
    ensures TotalSeries(data, TikTokOnly) == data.total
    ensures GroupSeries(g, TikTokOnly) == []
  {
  }

  // ---------------------------------------------------------------------
  // The accrual mask applied to the whole series response.
  // ---------------------------------------------------------------------

  /** A series of entries as an array of objects. */
  function Objs(es: seq<Entry>): (r: seq<Item>)
    ensures |r| == |es| && forall i :: 0 <= i < |es| ==> r[i] == Obj(es[i])
  {
    seq(|es|, i requires 0 <= i < |es| => Obj(es[i]))
  }

  /** `zeroBefore` on a series of entries: it is the array mask on the same entries as objects. */
  function MaskEntries(es: seq<Entry>, cutoff: Day): (r: seq<Entry>)
    ensures Objs(r) == ZeroBefore(Objs(es), cutoff)
  {
    var r := seq(|es|, i requires 0 <= i < |es| => if es[i].date <= cutoff then ZeroEntry(es[i]) else es[i]);
    assert forall i :: 0 <= i < |es| ==> Objs(r)[i] == ZeroBefore(Objs(es), cutoff)[i];
    r
  }

  function MaskOpt(s: Option<seq<Entry>>, cutoff: Day): Option<seq<Entry>>
  {
    if s.Some? then Some(MaskEntries(s.value, cutoff)) else None
  }

  /**
   * A group after the accrual mask: its three series masked, where a missing
   * platform series becomes the mask of the empty array, that is an empty
   * array.
   */
  function MaskGroup(g: Group, cutoff: Day): Group
  {
    Group(g.name, MaskEntries(g.series, cutoff), Some(MaskEntries(OrEmpty(g.seriesTikTok), cutoff)),
          Some(MaskEntries(OrEmpty(g.seriesInstagram), cutoff)))
  }

  /**
   * The accrual mask of the response: `total` and every platform total that
   * is present are masked, and so is every series of every group.
   */
  function MaskResponse(data: SeriesData, cutoff: Day): (r: SeriesData)
    ensures Objs(r.total) == ZeroBefore(Objs(data.total), cutoff)
    ensures r.totalTikTok.Some? == data.totalTikTok.Some? && r.totalInstagram.Some? == data.totalInstagram.Some?
    ensures data.totalTikTok.Some? ==> Objs(r.totalTikTok.value) == ZeroBefore(Objs(data.totalTikTok.value), cutoff)
    ensures data.totalInstagram.Some? ==> Objs(r.totalInstagram.value) == ZeroBefore(Objs(data.totalInstagram.value), cutoff)
    ensures |r.groups| == |data.groups|
    ensures forall i :: 0 <= i < |r.groups| ==>
      r.groups[i].name == data.groups[i].name &&
      Objs(r.groups[i].series) == ZeroBefore(Objs(data.groups[i].series), cutoff) &&
      r.groups[i].seriesTikTok.Some? && r.groups[i].seriesInstagram.Some?
  {
    SeriesData(MaskEntries(data.total, cutoff), MaskOpt(data.totalTikTok, cutoff), MaskOpt(data.totalInstagram, cutoff),
               seq(|data.groups|, i requires 0 <= i < |data.groups| => MaskGroup(data.groups[i], cutoff)))
  }

  /**
   * After the mask, a group that had no TikTok series has an empty one: the
   * TikTok filter then draws its line at 0 on every date, where without the
   * mask it falls back to the group's combined series.
   */
  lemma MaskedMissingPlatform(data: SeriesData, cutoff: Day, i: nat, d: Day, metric: Metric)
    requires i < |data.groups| && data.groups[i].seriesTikTok.None?
    ensures GroupSeries(data.groups[i], TikTokOnly) == data.groups[i].series
    ensures GroupSeries(MaskResponse(data, cutoff).groups[i], TikTokOnly) == []
    ensures AlignedValue(GroupSeries(MaskResponse(data, cutoff).groups[i], TikTokOnly), d, metric) == 0
  {
    assert MaskResponse(data, cutoff).groups[i] == MaskGroup(data.groups[i], cutoff);
    assert |MaskEntries([], cutoff)| == 0;
  }

  /** The daily posts line: the posts map's count, or 0, for every date of the total series. */
  method DailyPosts(postsData: seq<PostsDay>, totalSeries: seq<Entry>) returns (vals: seq<int>)
    ensures |vals| == |totalSeries|
    ensures forall i :: 0 <= i < |totalSeries| ==>
      vals[i] == (var c := LastPosts(postsData, totalSeries[i].date); if c.Some? then c.value else 0)
  {
    var m, _ := PostsMap(postsData);
    vals := seq(|totalSeries|, i requires 0 <= i < |totalSeries| =>
      if totalSeries[i].date in m then m[totalSeries[i].date] else 0);
  }
}
