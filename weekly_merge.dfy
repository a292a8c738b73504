/**
 * The last steps of the weekly view (src/app/dashboard/page.tsx): the
 * periods sorted by start date, the periods with the same start and end
 * merged into one (their counters summed, their group entries combined by
 * name), and the result sorted by start date again.
 */
module WeeklyMerge {
  import opened Common
  import opened Days
  import opened Grouping
  import opened Dashboard
  import opened DashboardWeekly

  // ---------------------------------------------------------------------
  // Group entries combined by name
  // ---------------------------------------------------------------------

  function GName(g: GroupVal): string
  {
    g.name
  }

  /** The counters a merged group entry keeps: views, likes and comments. */
  function GBasic(g: GroupVal): Metrics
  {
    Basic(g.m)
  }

  /**
   * The reference merge of group entries: one entry per name, in order of
   * first appearance, holding the views, likes and comments of all entries
   * of that name.
   */
  function NameSums(gs: seq<GroupVal>): seq<GroupVal>
  {
    var names := Dedup(KeyList(gs, GName));
    seq(|names|, i requires 0 <= i < |names| => GroupVal(names[i], GroupSum(gs, GName, GBasic, names[i])))
  }

  /** The merged entries carry the names of the entries once each, in order of first appearance. */
  lemma {:induction false} NameSumsNames(gs: seq<GroupVal>)
    ensures KeyList(NameSums(gs), GName) == Dedup(KeyList(gs, GName))
  {
  }

  /** A merged entry is a name some entry carries, with the sum over that name. */
  lemma {:induction false} NameSumsMembers(gs: seq<GroupVal>, g: GroupVal)
    ensures g in NameSums(gs) <==>
      (exists x :: x in gs && x.name == g.name) && g.m == GroupSum(gs, GName, GBasic, g.name)
  {
    var names := Dedup(KeyList(gs, GName));
    var r := NameSums(gs);
    if g in r {
      var i :| 0 <= i < |r| && r[i] == g;
      var j :| 0 <= j < |gs| && KeyList(gs, GName)[j] == names[i];
      assert gs[j] in gs;
    }
    if (exists x :: x in gs && x.name == g.name) && g.m == GroupSum(gs, GName, GBasic, g.name) {
      var x :| x in gs && x.name == g.name;
      var j :| 0 <= j < |gs| && gs[j] == x;
      assert KeyList(gs, GName)[j] == g.name;
      var i :| 0 <= i < |names| && names[i] == g.name;
      assert r[i] == g;
    }
  }

  function GMetrics(g: GroupVal): Metrics
  {
    g.m
  }

  /** Combining by name neither loses nor invents a view, like or comment. */
  lemma {:induction false} NameSumsTotal(gs: seq<GroupVal>)
    ensures Total(KeyList(NameSums(gs), GMetrics)) == TotalOf(gs, GBasic)
  {
    var names := Dedup(KeyList(gs, GName));
    assert KeyList(NameSums(gs), GMetrics) == Groups(names, gs, GName, GBasic);
    forall x | x in gs ensures GName(x) in names {
      var j :| 0 <= j < |gs| && gs[j] == x;
      assert KeyList(gs, GName)[j] == GName(x);
    }
    SeriesTotal(names, gs, GName, GBasic);
  }

  /** The group entries of a name map in insertion order. */
  function Listing(acc: map<string, Metrics>, names: seq<string>): seq<GroupVal>
    requires forall i :: 0 <= i < |names| ==> names[i] in acc
  {
    seq(|names|, i requires 0 <= i < |names| => GroupVal(names[i], acc[names[i]]))
  }

  /** The entry a merged list holds for a name is the sum of that name's entries. */
  lemma {:induction false} SeedValue(cur: seq<GroupVal>, prev: seq<GroupVal>, n: string, v: GroupVal)
    requires cur == NameSums(prev)
    requires LastBy(cur, GName, n) == Some(v)
    ensures v.m == GroupSum(prev, GName, GBasic, n)
  {
    LastByIsLast(cur, GName, n);
    var i :| 0 <= i < |cur| && cur[i] == v && GName(cur[i]) == n;
  }

  /** The name map rebuilt from merged entries is the grouping of the entries they merged. */
  lemma {:induction false} SeedGrouped(cur: seq<GroupVal>, prev: seq<GroupVal>, byName: map<string, GroupVal>,
                                       names: seq<string>, acc: map<string, Metrics>)
    requires cur == NameSums(prev)
    requires names == Dedup(KeyList(cur, GName)) && byName.Keys == Elems(names)
    requires forall n :: LastBy(cur, GName, n) == if n in byName then Some(byName[n]) else None
    requires acc.Keys == byName.Keys && forall n :: n in acc ==> acc[n] == byName[n].m
    ensures Grouped(acc, names, prev, GName, GBasic)
  {
    var ks := KeyList(prev, GName);
    NameSumsNames(prev);
    DedupDistinct(Dedup(ks));
    assert names == Dedup(ks);
    forall n | n in acc ensures acc[n] == GroupSum(prev, GName, GBasic, n) {
      SeedValue(cur, prev, n, byName[n]);
    }
    forall x | x in prev ensures GName(x) in acc {
      var j :| 0 <= j < |prev| && prev[j] == x;
      assert ks[j] == GName(x);
      var i :| 0 <= i < |names| && names[i] == GName(x);
      assert names[i] in Elems(names);
    }
  }

  /** The listing of a grouping by name is the reference merge. */
  lemma {:induction false} ListingMerged(acc: map<string, Metrics>, names: seq<string>, gs: seq<GroupVal>)
    requires Grouped(acc, names, gs, GName, GBasic)
    ensures forall i :: 0 <= i < |names| ==> names[i] in acc
    ensures Listing(acc, names) == NameSums(gs)
  {
    assert forall i :: 0 <= i < |names| ==> names[i] in Elems(names);
  }

  /**
   * A map of the merged entries by name, each entry of the period added to
   * the entry of its name (or to a zero entry), then the map's values in
   * insertion order.
   */
  method MergeGroups(cur: seq<GroupVal>, ghost prev: seq<GroupVal>, add: seq<GroupVal>) returns (r: seq<GroupVal>)
    requires cur == NameSums(prev)
    ensures r == NameSums(prev + add)
  {
    var byName, names := IndexBy(cur, GName);
    var acc := map n | n in byName :: byName[n].m;
    SeedGrouped(cur, prev, byName, names, acc);
    var acc', names' := GroupInto(acc, names, prev, add, GName, GBasic);
    ListingMerged(acc', names', prev + add);
    r := Listing(acc', names');
  }

  // ---------------------------------------------------------------------
  // Periods merged by their start and end dates
  // ---------------------------------------------------------------------

  /** The merge key: a period's first and last day. */
  datatype Span = Span(start: Day, end: Day)

  function SpanOf(p: Period): Span
  {
    Span(p.startDate, p.endDate)
  }

  /** The nine counters a merged period keeps: views, likes and comments of the total and of each platform. */
  function PTotal(p: Period): Metrics
  {
    Basic(p.total)
  }

  function PTikTok(p: Period): Metrics
  {
    Basic(p.tiktok)
  }

  function PInstagram(p: Period): Metrics
  {
    Basic(p.instagram)
  }

  /** The group entries of the periods of span `s`, in order. */
  function GroupsOf(ps: seq<Period>, s: Span): seq<GroupVal>
  {
    if ps == [] then []
    else
      var p := ps[|ps| - 1];
      GroupsOf(ps[..|ps| - 1], s) + (if SpanOf(p) == s then p.groups else [])
  }

  /** Whether the first period of span `s` is historical (the fresh entry copies its flag). */
  function FirstHistorical(ps: seq<Period>, s: Span): bool
  {
    var f := FirstBy(ps, SpanOf, s);
    f.Some? && f.value.isHistorical
  }

  /** The reference merged period of span `s`. */
  function Combined(ps: seq<Period>, s: Span): Period
  {
    Period(s.start, s.end, GroupSum(ps, SpanOf, PTotal, s), GroupSum(ps, SpanOf, PTikTok, s),
           GroupSum(ps, SpanOf, PInstagram, s), FirstHistorical(ps, s), NameSums(GroupsOf(ps, s)))
  }

  /** The reference merge: one period per span, in order of first appearance. */
  function Merged(ps: seq<Period>): seq<Period>
  {
    var spans := Dedup(KeyList(ps, SpanOf));
    seq(|spans|, i requires 0 <= i < |spans| => Combined(ps, spans[i]))
  }

  lemma {:induction false} GroupsOfAbsent(ps: seq<Period>, s: Span)
    requires forall i :: 0 <= i < |ps| ==> SpanOf(ps[i]) != s
    ensures GroupsOf(ps, s) == []
  {
    if ps != [] {
      GroupsOfAbsent(ps[..|ps| - 1], s);
    }
  }

  lemma {:induction false} AbsentSpan(ps: seq<Period>, s: Span)
    requires s !in KeyList(ps, SpanOf)
    ensures forall p :: p in ps ==> SpanOf(p) != s
    ensures forall i :: 0 <= i < |ps| ==> SpanOf(ps[i]) != s
  {
    assert forall i :: 0 <= i < |ps| ==> KeyList(ps, SpanOf)[i] == SpanOf(ps[i]);
  }

  lemma {:induction false} NameSumsEmpty()
    ensures NameSums([]) == []
  {
    assert KeyList([], GName) == [];
  }

  /** A span no period carries merges to an empty period. */
  lemma {:induction false} CombinedAbsent(ps: seq<Period>, s: Span)
    requires s !in KeyList(ps, SpanOf)
    ensures Combined(ps, s) == Period(s.start, s.end, Zero, Zero, Zero, false, [])
  {
    AbsentSpan(ps, s);
    NameSumsEmpty();
    GroupSumAbsent(ps, SpanOf, PTotal, s);
    GroupSumAbsent(ps, SpanOf, PTikTok, s);
    GroupSumAbsent(ps, SpanOf, PInstagram, s);
    FirstByIsFirst(ps, SpanOf, s);
    GroupsOfAbsent(ps, s);
  }

  lemma {:induction false} GroupsOfSnoc(ps: seq<Period>, p: Period, s: Span)
    ensures GroupsOf(ps + [p], s) == GroupsOf(ps, s) + (if SpanOf(p) == s then p.groups else [])
  {
    assert (ps + [p])[..|ps|] == ps;
  }

  lemma {:induction false} HistoricalSnoc(ps: seq<Period>, p: Period, s: Span)
    ensures FirstHistorical(ps + [p], s) ==
      if s in KeyList(ps, SpanOf) then FirstHistorical(ps, s) else SpanOf(p) == s && p.isHistorical
    ensures s !in KeyList(ps, SpanOf) ==> !FirstHistorical(ps, s)
  {
    FirstBySnoc(ps, p, SpanOf, s);
    FirstByIsFirst(ps, SpanOf, s);
  }

  /** One more period leaves the merged periods of the other spans as they are. */
  lemma {:induction false} CombinedOther(ps: seq<Period>, p: Period, s: Span)
    requires SpanOf(p) != s
    ensures Combined(ps + [p], s) == Combined(ps, s)
  {
    GroupSumSnoc(ps, p, SpanOf, PTotal, s);
    GroupSumSnoc(ps, p, SpanOf, PTikTok, s);
    GroupSumSnoc(ps, p, SpanOf, PInstagram, s);
    HistoricalSnoc(ps, p, s);
    GroupsOfSnoc(ps, p, s);
    assert GroupsOf(ps + [p], s) == GroupsOf(ps, s);
  }

  /** One more period adds its counters and group entries to the merged period of its span. */
  lemma {:induction false} CombinedSame(ps: seq<Period>, p: Period)
    ensures var s := SpanOf(p);
      var c := Combined(ps, s);
      Combined(ps + [p], s) ==
        c.(total := Add(c.total, PTotal(p)), tiktok := Add(c.tiktok, PTikTok(p)),
           instagram := Add(c.instagram, PInstagram(p)),
           isHistorical := if s in KeyList(ps, SpanOf) then c.isHistorical else p.isHistorical,
           groups := NameSums(GroupsOf(ps, s) + p.groups))
  {
    var s := SpanOf(p);
    GroupSumSnoc(ps, p, SpanOf, PTotal, s);
    GroupSumSnoc(ps, p, SpanOf, PTikTok, s);
    GroupSumSnoc(ps, p, SpanOf, PInstagram, s);
    HistoricalSnoc(ps, p, s);
    GroupsOfSnoc(ps, p, s);
  }

  /** The state of the merge loop after the periods `seen`. */
  ghost predicate Aggregated(agg: map<Span, Period>, order: seq<Span>, seen: seq<Period>)
  {
    && order == Dedup(KeyList(seen, SpanOf))
    && agg.Keys == Elems(order)
    && forall s :: s in agg ==> agg[s] == Combined(seen, s)
  }

  /** A span is in the merge map exactly when some period seen so far carries it. */
  lemma {:induction false} AggregatedKeys(agg: map<Span, Period>, order: seq<Span>, seen: seq<Period>, s: Span)
    requires Aggregated(agg, order, seen)
    ensures s in agg <==> s in KeyList(seen, SpanOf)
  {
    var ks := KeyList(seen, SpanOf);
    if s in ks {
      var j :| 0 <= j < |ks| && ks[j] == s;
      assert ks[j] in order;
    }
    if s in agg {
      var i :| 0 <= i < |order| && order[i] == s;
    }
  }

  /** The merged entry a period starts from: the one of its span, or a fresh zero entry. */
  function Current(agg: map<Span, Period>, p: Period): Period
  {
    var s := SpanOf(p);
    if s in agg then agg[s] else Period(s.start, s.end, Zero, Zero, Zero, p.isHistorical, [])
  }

  /** The group entries the current entry holds are those merged from the periods of its span. */
  lemma {:induction false} CurrentGroups(agg: map<Span, Period>, order: seq<Span>, seen: seq<Period>, p: Period)
    requires Aggregated(agg, order, seen)
    ensures Current(agg, p).groups == NameSums(GroupsOf(seen, SpanOf(p)))
  {
    AggregatedKeys(agg, order, seen, SpanOf(p));
    if SpanOf(p) !in agg {
      CombinedAbsent(seen, SpanOf(p));
    }
  }

  /** The entry written back for a period's span is the merge of the one-longer prefix for that span. */
  lemma {:induction false} CurrentStep(agg: map<Span, Period>, order: seq<Span>, seen: seq<Period>, p: Period,
                                       cur: Period)
    requires Aggregated(agg, order, seen)
    requires var c := Current(agg, p);
      cur == c.(total := Add(c.total, PTotal(p)), tiktok := Add(c.tiktok, PTikTok(p)),
                instagram := Add(c.instagram, PInstagram(p)),
                groups := NameSums(GroupsOf(seen, SpanOf(p)) + p.groups))
    ensures Combined(seen + [p], SpanOf(p)) == cur
  {
    var s := SpanOf(p);
    AggregatedKeys(agg, order, seen, s);
    var c := Combined(seen, s);
    if s !in agg {
      CombinedAbsent(seen, s);
      assert Current(agg, p) == c.(isHistorical := p.isHistorical);
    } else {
      assert Current(agg, p) == c;
    }
    CombinedSame(seen, p);
  }

  /** The merged entries after one more period: only the entry of its span changes. */
  lemma {:induction false} ValuesStep(agg: map<Span, Period>, seen: seq<Period>, p: Period, cur: Period)
    requires forall s :: s in agg ==> agg[s] == Combined(seen, s)
    requires Combined(seen + [p], SpanOf(p)) == cur
    ensures forall t :: t in agg[SpanOf(p) := cur] ==> agg[SpanOf(p) := cur][t] == Combined(seen + [p], t)
  {
    forall t | t in agg[SpanOf(p) := cur] ensures agg[SpanOf(p) := cur][t] == Combined(seen + [p], t) {
      if t != SpanOf(p) {
        CombinedOther(seen, p, t);
      }
    }
  }

  /** One pass of the merge loop keeps the state the merge of a one-longer prefix. */
  lemma {:induction false} AggregateStep(agg: map<Span, Period>, order: seq<Span>, seen: seq<Period>, p: Period,
                                         cur: Period)
    requires Aggregated(agg, order, seen)
    requires Combined(seen + [p], SpanOf(p)) == cur
    ensures Aggregated(agg[SpanOf(p) := cur], if SpanOf(p) in agg then order else order + [SpanOf(p)], seen + [p])
  {
    IndexOrderStep(agg, order, seen, p, cur, SpanOf);
    ValuesStep(agg, seen, p, cur);
  }

  /** The merged periods in the map's insertion order. */
  function Values(agg: map<Span, Period>, order: seq<Span>): seq<Period>
    requires forall i :: 0 <= i < |order| ==> order[i] in agg
  {
    seq(|order|, i requires 0 <= i < |order| => agg[order[i]])
  }

  lemma {:induction false} ValuesMerged(agg: map<Span, Period>, order: seq<Span>, ps: seq<Period>)
    requires Aggregated(agg, order, ps)
    ensures forall i :: 0 <= i < |order| ==> order[i] in agg
    ensures Values(agg, order) == Merged(ps)
  {
    assert forall i :: 0 <= i < |order| ==> order[i] in Elems(order);
  }

  /** The merge loop over the sorted periods, keyed by start and end date. */
  method MergePeriods(ps: seq<Period>) returns (merged: seq<Period>)
    ensures merged == Merged(ps)
  {
    var agg: map<Span, Period> := map[];
    var order: seq<Span> := [];
    for i := 0 to |ps|
      invariant Aggregated(agg, order, ps[..i])
    {
      var p := ps[i];
      var s := SpanOf(p);
      assert ps[..i + 1] == ps[..i] + [p];
      var cur := Current(agg, p);
      CurrentGroups(agg, order, ps[..i], p);
      var groups := cur.groups;
      if |p.groups| > 0 {
        groups := MergeGroups(cur.groups, GroupsOf(ps[..i], s), p.groups);
      } else {
        assert GroupsOf(ps[..i], s) + p.groups == GroupsOf(ps[..i], s);
      }
      cur := cur.(total := Add(cur.total, PTotal(p)), tiktok := Add(cur.tiktok, PTikTok(p)),
                  instagram := Add(cur.instagram, PInstagram(p)), groups := groups);
      CurrentStep(agg, order, ps[..i], p, cur);
      AggregateStep(agg, order, ps[..i], p, cur);
      if s !in agg {
        order := order + [s];
      }
      agg := agg[s := cur];
    }
    assert ps[..|ps|] == ps;
    ValuesMerged(agg, order, ps);
    merged := Values(agg, order);
  }

  // ---------------------------------------------------------------------
  // What the merge preserves
  // ---------------------------------------------------------------------

  /** The merged periods carry the spans of the periods once each, in order of first appearance. */
  lemma {:induction false} MergedSpans(ps: seq<Period>)
    ensures KeyList(Merged(ps), SpanOf) == Dedup(KeyList(ps, SpanOf))
  {
  }

  function PMetrics(p: Period): Metrics
  {
    p.total
  }

  /** Merging neither loses nor invents a view, like or comment of the total. */
  lemma {:induction false} MergedTotal(ps: seq<Period>)
    ensures Total(KeyList(Merged(ps), PMetrics)) == TotalOf(ps, PTotal)
  {
    var spans := Dedup(KeyList(ps, SpanOf));
    assert KeyList(Merged(ps), PMetrics) == Groups(spans, ps, SpanOf, PTotal);
    forall x | x in ps ensures SpanOf(x) in spans {
      var j :| 0 <= j < |ps| && ps[j] == x;
      assert KeyList(ps, SpanOf)[j] == SpanOf(x);
    }
    SeriesTotal(spans, ps, SpanOf, PTotal);
  }

  /** A period on its own after the merge: its nine counters, and its group entries combined by name. */
  function Normal(p: Period): Period
  {
    Period(p.startDate, p.endDate, PTotal(p), PTikTok(p), PInstagram(p), p.isHistorical, NameSums(p.groups))
  }

  function Normalized(ps: seq<Period>): (r: seq<Period>)
    ensures |r| == |ps| && forall i :: 0 <= i < |ps| ==> r[i] == Normal(ps[i])
  {
    seq(|ps|, i requires 0 <= i < |ps| => Normal(ps[i]))
  }

  lemma {:induction false} GroupsOfOnly(ps: seq<Period>, i: nat)
    requires i < |ps|
    requires OnlyKey(ps, SpanOf, i)
    ensures GroupsOf(ps, SpanOf(ps[i])) == ps[i].groups
  {
    var n := |ps| - 1;
    var init := ps[..n];
    if i == n {
      GroupsOfAbsent(init, SpanOf(ps[i]));
      assert [] + ps[i].groups == ps[i].groups;
    } else {
      assert init[i] == ps[i];
      assert OnlyKey(init, SpanOf, i) by {
        forall j | 0 <= j < |init| && j != i ensures SpanOf(init[j]) != SpanOf(ps[i]) {
          assert init[j] == ps[j];
        }
      }
      GroupsOfOnly(init, i);
      assert ps[i].groups + [] == ps[i].groups;
    }
  }

  lemma {:induction false} FirstOnly(ps: seq<Period>, i: nat)
    requires i < |ps|
    requires OnlyKey(ps, SpanOf, i)
    ensures FirstHistorical(ps, SpanOf(ps[i])) == ps[i].isHistorical
  {
    var s := SpanOf(ps[i]);
    assert KeyList(ps, SpanOf)[i] == s;
    FirstByIsFirst(ps, SpanOf, s);
  }

  /** A span only one period carries merges to that period on its own. */
  lemma {:induction false} CombinedOnly(ps: seq<Period>, i: nat)
    requires i < |ps|
    requires OnlyKey(ps, SpanOf, i)
    ensures Combined(ps, SpanOf(ps[i])) == Normal(ps[i])
  {
    GroupSumOnly(ps, SpanOf, PTotal, i);
    GroupSumOnly(ps, SpanOf, PTikTok, i);
    GroupSumOnly(ps, SpanOf, PInstagram, i);
    FirstOnly(ps, i);
    GroupsOfOnly(ps, i);
  }

  /** When no two periods share a span the merge changes no period beyond combining its group entries by name. */
  lemma {:induction false} MergedDistinct(ps: seq<Period>)
    requires Distinct(KeyList(ps, SpanOf))
    ensures Merged(ps) == Normalized(ps)
  {
    var ks := KeyList(ps, SpanOf);
    DedupDistinct(ks);
    forall i | 0 <= i < |ps| ensures Merged(ps)[i] == Normal(ps[i]) {
      forall j | 0 <= j < |ps| && j != i ensures SpanOf(ps[j]) != SpanOf(ps[i]) {
        assert ks[i] == SpanOf(ps[i]) && ks[j] == SpanOf(ps[j]);
        if j < i { assert ks[j] != ks[i]; } else { assert ks[i] != ks[j]; }
      }
      assert OnlyKey(ps, SpanOf, i);
      CombinedOnly(ps, i);
    }
  }

  // ---------------------------------------------------------------------
  // The weekly view
  // ---------------------------------------------------------------------

  function PStart(p: Period): int
  {
    p.startDate
  }

  /**
   * The reference weekly view: the periods sorted by start date, merged by
   * span, and sorted by start date again.
   */
  function WeeklyView(data: SeriesData, platform: Platform, start: Day, end: Day): seq<Period>
  {
    SortBy(Merged(SortBy(ViewPeriods(data, platform, start, end), PStart)), PStart)
  }

  /** The weekly view: periods, sort, merge, sort, and the repeated sort before the chart is drawn. */
  method WeeklyChart(data: SeriesData, platform: Platform, start: Day, end: Day) returns (periods: seq<Period>)
    ensures periods == WeeklyView(data, platform, start, end)
  {
    var all := WeeklyPeriods(data, platform, start, end);
    all := SortBy(all, PStart);
    all := MergePeriods(all);
    all := SortBy(all, PStart);
    SortBySorted(all, PStart);
    periods := SortBy(all, PStart);
  }

  lemma AscendingSorted(ps: seq<Period>)
    requires StartsAscending(ps)
    ensures SortBy(ps, PStart) == ps
  {
    assert SortedBy(ps, PStart) by {
      forall i, j | 0 <= i < j < |ps| ensures PStart(ps[i]) <= PStart(ps[j]) {
        assert ps[i].startDate < ps[j].startDate;
      }
    }
    SortBySorted(ps, PStart);
  }

  lemma AscendingSpansDistinct(ps: seq<Period>)
    requires StartsAscending(ps)
    ensures Distinct(KeyList(ps, SpanOf))
  {
    var ks := KeyList(ps, SpanOf);
    forall i, j | 0 <= i < j < |ks| ensures ks[i] != ks[j] {
      assert ps[i].startDate < ps[j].startDate;
    }
  }

  lemma NormalizedAscending(ps: seq<Period>)
    requires StartsAscending(ps)
    ensures StartsAscending(Normalized(ps))
  {
    var nv := Normalized(ps);
    forall i, j | 0 <= i < j < |nv| ensures nv[i].startDate < nv[j].startDate {
      assert ps[i].startDate < ps[j].startDate;
    }
  }

  /**
   * Only real-time weeks reach the merge, one period per week, already in
   * order: the weekly view is those periods each on its own.
   */
  lemma WeeklyViewNormal(data: SeriesData, platform: Platform, start: Day, end: Day)
    ensures WeeklyView(data, platform, start, end) == Normalized(ViewPeriods(data, platform, start, end))
  {
    var vp := ViewPeriods(data, platform, start, end);
    ViewPeriodsAscending(data, platform, start, end);
    AscendingSorted(vp);
    AscendingSpansDistinct(vp);
    MergedDistinct(vp);
    NormalizedAscending(vp);
    AscendingSorted(Normalized(vp));
  }
}
