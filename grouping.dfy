/**
 * Summing rows into groups: the reference definition behind every
 * loop of the routes that adds each row's counters to the entry of its key, and
 * the fact that grouping neither loses nor invents any counter.
 */
module Grouping {
  import opened Common

  /** Sum of `val(x)` over the rows `x` of `xs` whose key is `k`. */
  function GroupSum<T, K(==)>(xs: seq<T>, key: T -> K, val: T -> Metrics, k: K): Metrics
  {
    if xs == [] then Zero
    else
      var x := xs[|xs| - 1];
      Add(GroupSum(xs[..|xs| - 1], key, val, k), if key(x) == k then val(x) else Zero)
  }

  /** Sum of `val(x)` over all rows. */
  function TotalOf<T>(xs: seq<T>, val: T -> Metrics): Metrics
  {
    if xs == [] then Zero else Add(TotalOf(xs[..|xs| - 1], val), val(xs[|xs| - 1]))
  }

  /** Sum of the groups named by `ks`. */
  function SumGroups<T, K(==)>(ks: seq<K>, xs: seq<T>, key: T -> K, val: T -> Metrics): Metrics
  {
    if ks == [] then Zero
    else Add(SumGroups(ks[..|ks| - 1], xs, key, val), GroupSum(xs, key, val, ks[|ks| - 1]))
  }

  /** `v` counted once for each occurrence of `k0` in `ks`. */
  function Indicator<K(==)>(ks: seq<K>, k0: K, v: Metrics): Metrics
  {
    if ks == [] then Zero
    else Add(Indicator(ks[..|ks| - 1], k0, v), if ks[|ks| - 1] == k0 then v else Zero)
  }

  lemma {:induction false} IndicatorOnce<K>(ks: seq<K>, k0: K, v: Metrics)
    requires Distinct(ks)
    ensures Indicator(ks, k0, v) == if k0 in ks then v else Zero
  {
    if ks != [] {
      var init, last := ks[..|ks| - 1], ks[|ks| - 1];
      DistinctInit(ks);
      IndicatorOnce(init, k0, v);
      InInit(ks, k0);
      if last == k0 {
        AddZero(v);
      } else {
        AddZero(Indicator(init, k0, v));
      }
    }
  }

  lemma Regroup(s: Metrics, i: Metrics, g: Metrics, v: Metrics, b: bool)
    ensures Add(Add(s, i), if b then Add(g, v) else g) == Add(Add(s, g), Add(i, if b then v else Zero))
  {
  }

  lemma {:induction false} SumGroupsSnoc<T, K>(ks: seq<K>, xs: seq<T>, x: T, key: T -> K, val: T -> Metrics)
    ensures SumGroups(ks, xs + [x], key, val) == Add(SumGroups(ks, xs, key, val), Indicator(ks, key(x), val(x)))
  {
    if ks != [] {
      var init, k := ks[..|ks| - 1], ks[|ks| - 1];
      var xs' := xs + [x];
      SumGroupsSnoc(init, xs, x, key, val);
      GroupSumSnoc(xs, x, key, val, k);
      Regroup(SumGroups(init, xs, key, val), Indicator(init, key(x), val(x)),
        GroupSum(xs, key, val, k), val(x), key(x) == k);
    }
  }

  /**
   * When every row's key is one of the distinct keys `ks`, the groups
   * together hold exactly the total of all rows.
   */
  lemma {:induction false} GroupsPartition<T, K>(ks: seq<K>, xs: seq<T>, key: T -> K, val: T -> Metrics)
    requires Distinct(ks)
    requires forall x :: x in xs ==> key(x) in ks
    ensures SumGroups(ks, xs, key, val) == TotalOf(xs, val)
  {
    if xs == [] {
      SumGroupsEmpty(ks, xs, key, val);
    } else {
      var init := xs[..|xs| - 1];
      var x := xs[|xs| - 1];
      assert xs == init + [x];
      GroupsPartition(ks, init, key, val);
      SumGroupsSnoc(ks, init, x, key, val);
      IndicatorOnce(ks, key(x), val(x));
    }
  }

  lemma {:induction false} SumGroupsEmpty<T, K>(ks: seq<K>, xs: seq<T>, key: T -> K, val: T -> Metrics)
    requires xs == []
    ensures SumGroups(ks, xs, key, val) == Zero
  {
    if ks != [] {
      SumGroupsEmpty(ks[..|ks| - 1], xs, key, val);
    }
  }

  /** The total of a concatenation is the sum of the totals. */
  lemma {:induction false} TotalOfAppend<T>(a: seq<T>, b: seq<T>, val: T -> Metrics)
    ensures TotalOf(a + b, val) == Add(TotalOf(a, val), TotalOf(b, val))
    decreases |b|
  {
    if b == [] {
      assert a + b == a;
    } else {
      assert (a + b)[..|a + b| - 1] == a + b[..|b| - 1];
      TotalOfAppend(a, b[..|b| - 1], val);
    }
  }

  /** Appending a row changes only the group of its key, by its value. */
  lemma GroupSumSnoc<T, K>(xs: seq<T>, x: T, key: T -> K, val: T -> Metrics, k: K)
    ensures GroupSum(xs + [x], key, val, k) ==
      if key(x) == k then Add(GroupSum(xs, key, val, k), val(x)) else GroupSum(xs, key, val, k)
  {
    assert (xs + [x])[..|xs + [x]| - 1] == xs;
  }

  /** A key that no row carries has an empty group. */
  lemma {:induction false} GroupSumAbsent<T, K>(xs: seq<T>, key: T -> K, val: T -> Metrics, k: K)
    requires forall x :: x in xs ==> key(x) != k
    ensures GroupSum(xs, key, val, k) == Zero
  {
    if xs != [] {
      GroupSumAbsent(xs[..|xs| - 1], key, val, k);
    }
  }

  /** No row but the `i`-th carries its key. */
  ghost predicate OnlyKey<T, K>(xs: seq<T>, key: T -> K, i: nat)
  {
    i < |xs| && forall j :: 0 <= j < |xs| && j != i ==> key(xs[j]) != key(xs[i])
  }

  /** A group only one row carries holds exactly that row's value. */
  lemma {:induction false} GroupSumOnly<T, K>(xs: seq<T>, key: T -> K, val: T -> Metrics, i: nat)
    requires OnlyKey(xs, key, i)
    ensures GroupSum(xs, key, val, key(xs[i])) == val(xs[i])
  {
    var n := |xs| - 1;
    var init := xs[..n];
    var k := key(xs[i]);
    assert GroupSum(xs, key, val, k) == Add(GroupSum(init, key, val, k), if key(xs[n]) == k then val(xs[n]) else Zero);
    if i == n {
      forall x | x in init ensures key(x) != k {
        var j :| 0 <= j < n && init[j] == x;
        assert xs[j] == x;
      }
      GroupSumAbsent(init, key, val, k);
      AddZero(val(xs[i]));
    } else {
      assert init[i] == xs[i];
      assert OnlyKey(init, key, i) by {
        forall j | 0 <= j < |init| && j != i ensures key(init[j]) != k {
          assert init[j] == xs[j];
        }
      }
      GroupSumOnly(init, key, val, i);
      AddZero(val(xs[i]));
    }
  }

  /** The group sums in the order of `ks`: one entry per key. */
  function Groups<T, K(==)>(ks: seq<K>, xs: seq<T>, key: T -> K, val: T -> Metrics): (gs: seq<Metrics>)
    ensures |gs| == |ks| && forall i :: 0 <= i < |ks| ==> gs[i] == GroupSum(xs, key, val, ks[i])
  {
    seq(|ks|, i requires 0 <= i < |ks| => GroupSum(xs, key, val, ks[i]))
  }

  lemma {:induction false} TotalGroups<T, K>(ks: seq<K>, xs: seq<T>, key: T -> K, val: T -> Metrics)
    ensures Total(Groups(ks, xs, key, val)) == SumGroups(ks, xs, key, val)
  {
    if ks != [] {
      var init := ks[..|ks| - 1];
      assert Groups(ks, xs, key, val)[..|ks| - 1] == Groups(init, xs, key, val);
      TotalGroups(init, xs, key, val);
    }
  }

  /**
   * A series with one sum per distinct key, where every row's key is one of
   * them, totals exactly the rows.
   */
  lemma SeriesTotal<T, K>(ks: seq<K>, xs: seq<T>, key: T -> K, val: T -> Metrics)
    requires Distinct(ks)
    requires forall x :: x in xs ==> key(x) in ks
    ensures Total(Groups(ks, xs, key, val)) == TotalOf(xs, val)
  {
    TotalGroups(ks, xs, key, val);
    GroupsPartition(ks, xs, key, val);
  }

  // ---------------------------------------------------------------------
  // The keyed accumulator of the loops: a map with its keys in insertion
  // order (the order in which a JavaScript map lists its values), and its sorted
  // listing when the key is a day or a week number.
  // ---------------------------------------------------------------------

  /** `order` lists the keys of `acc` once each, in insertion order. */
  ghost predicate Ordered<K>(acc: map<K, Metrics>, order: seq<K>)
  {
    Distinct(order) && acc.Keys == Elems(order)
  }

  /** A row's counters added to the entry of its key, a zero entry when the key is new. */
  method AddToGroup<K>(acc: map<K, Metrics>, order: seq<K>, k: K, v: Metrics)
    returns (acc': map<K, Metrics>, order': seq<K>)
    requires Ordered(acc, order)
    ensures Ordered(acc', order')
    ensures order' == if k in acc then order else order + [k]
    ensures acc' == acc[k := Add(if k in acc then acc[k] else Zero, v)]
  {
    var cur := if k in acc then acc[k] else Zero;
    order' := order;
    if k !in acc {
      order' := order + [k];
      forall i, j | 0 <= i < j < |order'| ensures order'[i] != order'[j] {
        if j == |order| { assert order'[i] == order[i] && order[i] in Elems(order); }
      }
    }
    acc' := acc[k := Add(cur, v)];
  }

  /** Every group of `acc` holds the group sum of its key over `seen`. */
  ghost predicate GroupSums<T, K>(acc: map<K, Metrics>, seen: seq<T>, key: T -> K, val: T -> Metrics)
  {
    forall k :: k in acc ==> acc[k] == GroupSum(seen, key, val, k)
  }

  /** The key of every row of `seen` is a key of `acc`. */
  ghost predicate Covers<T, K>(acc: map<K, Metrics>, seen: seq<T>, key: T -> K)
  {
    forall x :: x in seen ==> key(x) in acc
  }

  /**
   * One step of a grouping loop: after adding row `x` under its key, every
   * group of the accumulator is the group sum over the rows seen so far.
   */
  lemma AddToGroupSum<T, K>(acc: map<K, Metrics>, xs: seq<T>, x: T, key: T -> K, val: T -> Metrics)
    requires GroupSums(acc, xs, key, val) && Covers(acc, xs, key)
    ensures var acc' := acc[key(x) := Add(if key(x) in acc then acc[key(x)] else Zero, val(x))];
      GroupSums(acc', xs + [x], key, val) && Covers(acc', xs + [x], key)
  {
    var k := key(x);
    var acc' := acc[k := Add(if k in acc then acc[k] else Zero, val(x))];
    forall k' | k' in acc' ensures acc'[k'] == GroupSum(xs + [x], key, val, k') {
      GroupSumSnoc(xs, x, key, val, k');
      if k' == k && k !in acc {
        GroupSumAbsent(xs, key, val, k);
        AddZero(val(x));
      }
    }
  }

  /** The groups of `acc` as dated points, in insertion order. */
  function GroupPoints(acc: map<int, Metrics>, order: seq<int>): (ps: seq<Point>)
    requires Elems(order) <= acc.Keys
    ensures |ps| == |order| && forall i :: 0 <= i < |order| ==> ps[i] == Point(order[i], acc[order[i]])
  {
    seq(|order|, i requires 0 <= i < |order| => assert order[i] in Elems(order); Point(order[i], acc[order[i]]))
  }

  function PointDate(p: Point): int
  {
    p.date
  }

  /**
   * The map's values sorted by key: the groups strictly ascending by
   * key, each key once, each with its accumulated value.
   */
  function SortedGroups(acc: map<int, Metrics>, order: seq<int>): (ps: seq<Point>)
    requires Ordered(acc, order)
    ensures |ps| == |order|
    ensures forall i, j :: 0 <= i < j < |ps| ==> ps[i].date < ps[j].date
    ensures forall p :: p in ps <==> p.date in acc && p.m == acc[p.date]
  {
    var list := GroupPoints(acc, order);
    assert KeysDistinct(list, PointDate);
    SortByKeysDistinct(list, PointDate);
    StrictlySorted(SortBy(list, PointDate), PointDate);
    forall p ensures p in SortBy(list, PointDate) <==> p.date in acc && p.m == acc[p.date] {
      SortByMembers(list, PointDate, p);
      if p.date in acc && p.m == acc[p.date] {
        assert p.date in Elems(order);
        var i :| 0 <= i < |order| && order[i] == p.date;
        assert list[i] == p;
      }
    }
    SortBy(list, PointDate)
  }

  /**
   * The accumulator of a grouping loop after the rows `seen`: the keys the
   * rows carry, once each in order of first appearance, each holding its
   * group sum.
   */
  ghost predicate Grouped<T, K>(acc: map<K, Metrics>, order: seq<K>, seen: seq<T>, key: T -> K, val: T -> Metrics)
  {
    && order == Dedup(KeyList(seen, key))
    && acc.Keys == Elems(order)
    && GroupSums(acc, seen, key, val)
    && Covers(acc, seen, key)
  }

  /** One row added to a grouping: the accumulator of the longer prefix. */
  lemma GroupedStep<T, K>(acc: map<K, Metrics>, order: seq<K>, seen: seq<T>, x: T, key: T -> K, val: T -> Metrics)
    requires Grouped(acc, order, seen, key, val)
    ensures Ordered(acc, order)
    ensures Grouped(acc[key(x) := Add(if key(x) in acc then acc[key(x)] else Zero, val(x))],
                    if key(x) in acc then order else order + [key(x)], seen + [x], key, val)
  {
    AddToGroupSum(acc, seen, x, key, val);
    var ks := KeyList(seen, key);
    assert KeyList(seen + [x], key) == ks + [key(x)];
    assert (ks + [key(x)])[..|ks|] == ks;
  }

  /** `GroupedStep` for the row at index `j` of the rows being added. */
  lemma GroupedStepAt<T, K>(acc: map<K, Metrics>, order: seq<K>, seen: seq<T>, xs: seq<T>, j: nat,
                            key: T -> K, val: T -> Metrics)
    requires j < |xs| && Grouped(acc, order, seen + xs[..j], key, val)
    ensures Ordered(acc, order)
    ensures Grouped(acc[key(xs[j]) := Add(if key(xs[j]) in acc then acc[key(xs[j])] else Zero, val(xs[j]))],
                    if key(xs[j]) in acc then order else order + [key(xs[j])], seen + xs[..j + 1], key, val)
  {
    assert seen + xs[..j + 1] == (seen + xs[..j]) + [xs[j]];
    GroupedStep(acc, order, seen + xs[..j], xs[j], key, val);
  }

  /** A `forEach` of a grouping loop: the rows `xs` added, in order, to the accumulator. */
  method GroupInto<T, K>(acc: map<K, Metrics>, order: seq<K>, ghost seen: seq<T>, xs: seq<T>,
                         key: T -> K, val: T -> Metrics)
    returns (acc': map<K, Metrics>, order': seq<K>)
    requires Grouped(acc, order, seen, key, val)
    ensures Grouped(acc', order', seen + xs, key, val)
  {
    acc', order' := acc, order;
    assert seen + xs[..0] == seen;
    for j := 0 to |xs|
      invariant Grouped(acc', order', seen + xs[..j], key, val)
    {
      var x := xs[j];
      GroupedStepAt(acc', order', seen, xs, j, key, val);
      acc', order' := AddToGroup(acc', order', key(x), val(x));
    }
    assert xs[..|xs|] == xs;
  }

  /**
   * The reference result of a grouping with integer keys: one point for
   * each key the rows carry, ascending, holding that key's group sum.
   */
  function SortedSums<T>(xs: seq<T>, key: T -> int, val: T -> Metrics): (ps: seq<Point>)
    ensures forall i, j :: 0 <= i < j < |ps| ==> ps[i].date < ps[j].date
  {
    var ks := Ascending(KeyList(xs, key));
    seq(|ks|, i requires 0 <= i < |ks| => Point(ks[i], GroupSum(xs, key, val, ks[i])))
  }

  /** A point of the reference result is a key some row carries, with its group sum. */
  lemma SortedSumsMembers<T>(xs: seq<T>, key: T -> int, val: T -> Metrics, p: Point)
    ensures p in SortedSums(xs, key, val) <==>
      (exists x :: x in xs && key(x) == p.date) && p.m == GroupSum(xs, key, val, p.date)
  {
    var ks := Ascending(KeyList(xs, key));
    var ps := SortedSums(xs, key, val);
    if p in ps {
      var i :| 0 <= i < |ps| && ps[i] == p;
      assert ks[i] in KeyList(xs, key);
      var j :| 0 <= j < |xs| && KeyList(xs, key)[j] == ks[i];
      assert xs[j] in xs;
    }
    if exists x :: x in xs && key(x) == p.date {
      var x :| x in xs && key(x) == p.date;
      var j :| 0 <= j < |xs| && xs[j] == x;
      assert KeyList(xs, key)[j] == p.date;
      var i :| 0 <= i < |ks| && ks[i] == p.date;
      if p.m == GroupSum(xs, key, val, p.date) {
        assert ps[i] == p;
      }
    }
  }

  /** The reference result totals exactly the rows: grouping loses and invents nothing. */
  lemma SortedSumsTotal<T>(xs: seq<T>, key: T -> int, val: T -> Metrics)
    ensures Total(MetricsOf(SortedSums(xs, key, val))) == TotalOf(xs, val)
  {
    var ks := Ascending(KeyList(xs, key));
    var ps := SortedSums(xs, key, val);
    assert Distinct(ks) by {
      forall i, j | 0 <= i < j < |ks| ensures ks[i] != ks[j] { assert ks[i] < ks[j]; }
    }
    forall x | x in xs ensures key(x) in ks {
      var j :| 0 <= j < |xs| && xs[j] == x;
      assert KeyList(xs, key)[j] == key(x);
    }
    assert MetricsOf(ps) == Groups(ks, xs, key, val);
    SeriesTotal(ks, xs, key, val);
  }

  /** The keys of a finished grouping are the keys its rows carry. */
  lemma GroupedKeys<T, K>(acc: map<K, Metrics>, order: seq<K>, xs: seq<T>, key: T -> K, val: T -> Metrics, k: K)
    requires Grouped(acc, order, xs, key, val)
    ensures k in acc <==> k in KeyList(xs, key)
  {
    var ks := KeyList(xs, key);
    if k in ks {
      var j :| 0 <= j < |ks| && ks[j] == k;
      assert xs[j] in xs;
    }
    if k in acc {
      assert k in Elems(order);
    }
  }

  /** The dates of a sorted listing, ascending and exactly the keys of the grouping. */
  lemma ListingDates(acc: map<int, Metrics>, order: seq<int>, d: int)
    requires Ordered(acc, order)
    ensures d in KeyList(SortedGroups(acc, order), PointDate) <==> d in acc
  {
    var ps := SortedGroups(acc, order);
    var ds := KeyList(ps, PointDate);
    if d in ds {
      var i :| 0 <= i < |ds| && ds[i] == d;
      assert ps[i] in ps;
    }
    if d in acc {
      assert Point(d, acc[d]) in ps;
      var i :| 0 <= i < |ps| && ps[i] == Point(d, acc[d]);
      assert ds[i] == d;
    }
  }

  /**
   * A finished grouping with integer keys, listed and sorted by key, is the
   * reference result.
   */
  lemma GroupedListing<T>(acc: map<int, Metrics>, order: seq<int>, xs: seq<T>, key: T -> int, val: T -> Metrics)
    requires Grouped(acc, order, xs, key, val)
    ensures Ordered(acc, order)
    ensures SortedGroups(acc, order) == SortedSums(xs, key, val)
  {
    var ps := SortedGroups(acc, order);
    var ds := KeyList(ps, PointDate);
    var asc := Ascending(KeyList(xs, key));
    forall d ensures d in ds <==> d in asc {
      ListingDates(acc, order, d);
      GroupedKeys(acc, order, xs, key, val, d);
    }
    AscendingUnique(ds, asc);
    var ref := SortedSums(xs, key, val);
    forall i | 0 <= i < |ps| ensures ps[i] == ref[i] {
      assert ps[i] in ps;
    }
  }
}
