/**
 * Values shared by every route of the analytics dashboard: optional values,
 * the five engagement counters, their sums, and the stable sort that the
 * routes use when they turn a keyed map back into an ordered series.
 */
module Common {

  datatype Option<+T> = None | Some(value: T)

  /** A counter as it arrives in a row: `None` when it is null, missing or not numeric. */
  type Num = Option<int>

  /** A missing counter reads as 0. */
  function Val(n: Num): int
  {
    if n.Some? then n.value else 0
  }

  /**
   * The engagement counters of a post, an account or a day.
   * Where a source object carries only views, likes and comments,
   * shares and saves are 0.
   */
  datatype Metrics = Metrics(views: int, likes: int, comments: int, shares: int, saves: int)

  const Zero := Metrics(0, 0, 0, 0, 0)

  function Add(a: Metrics, b: Metrics): Metrics
  {
    Metrics(a.views + b.views, a.likes + b.likes, a.comments + b.comments,
            a.shares + b.shares, a.saves + b.saves)
  }

  lemma AddZero(m: Metrics)
    ensures Add(Zero, m) == m && Add(m, Zero) == m
  {
  }

  function Sub(a: Metrics, b: Metrics): Metrics
  {
    Metrics(a.views - b.views, a.likes - b.likes, a.comments - b.comments,
            a.shares - b.shares, a.saves - b.saves)
  }

  /** `x` clamped below at 0. */
  function Max0(x: int): int
  {
    if x < 0 then 0 else x
  }

  /** The growth from `prev` to `cur`, clamped at 0, on every counter. */
  function ClampDelta(cur: Metrics, prev: Metrics): Metrics
  {
    Metrics(Max0(cur.views - prev.views), Max0(cur.likes - prev.likes),
            Max0(cur.comments - prev.comments), Max0(cur.shares - prev.shares),
            Max0(cur.saves - prev.saves))
  }

  /** Every counter of `cur` clamped below at 0. */
  function Clamp(cur: Metrics): Metrics
  {
    ClampDelta(cur, Zero)
  }

  predicate NonNeg(m: Metrics)
  {
    m.views >= 0 && m.likes >= 0 && m.comments >= 0 && m.shares >= 0 && m.saves >= 0
  }

  /** Every counter of `a` is at most the same counter of `b`. */
  predicate Le(a: Metrics, b: Metrics)
  {
    a.views <= b.views && a.likes <= b.likes && a.comments <= b.comments &&
    a.shares <= b.shares && a.saves <= b.saves
  }

  /** A dated point of a chart series. */
  datatype Point = Point(date: int, m: Metrics)

  /** Left-to-right sum, as `reduce` computes it. */
  function Total(ms: seq<Metrics>): Metrics
  {
    if ms == [] then Zero else Add(Total(ms[..|ms| - 1]), ms[|ms| - 1])
  }

  lemma {:induction false} TotalAppend(a: seq<Metrics>, b: seq<Metrics>)
    ensures Total(a + b) == Add(Total(a), Total(b))
    decreases |b|
  {
    if b == [] {
      assert a + b == a;
    } else {
      var b' := b[..|b| - 1];
      assert (a + b)[..|a + b| - 1] == a + b';
      TotalAppend(a, b');
    }
  }

  /** The counters of a series of points, in order. */
  function MetricsOf(ps: seq<Point>): (ms: seq<Metrics>)
    ensures |ms| == |ps| && forall i :: 0 <= i < |ps| ==> ms[i] == ps[i].m
  {
    KeyList(ps, (p: Point) => p.m)
  }

  predicate Distinct<T(==)>(s: seq<T>)
  {
    forall i, j :: 0 <= i < j < |s| ==> s[i] != s[j]
  }

  /** Dropping the last element keeps a sequence distinct, and the last element is not repeated. */
  lemma DistinctInit<T>(s: seq<T>)
    requires Distinct(s) && s != []
    ensures Distinct(s[..|s| - 1]) && s[|s| - 1] !in s[..|s| - 1]
  {
    var t := s[..|s| - 1];
    forall i | 0 <= i < |t| ensures t[i] != s[|s| - 1] {
      assert t[i] == s[i];
    }
  }

  /** Appending an element not yet present keeps a sequence distinct. */
  lemma DistinctSnoc<T>(s: seq<T>, x: T)
    requires Distinct(s) && x !in s
    ensures Distinct(s + [x])
  {
    var t := s + [x];
    forall i, j | 0 <= i < j < |t| ensures t[i] != t[j] {
      if j == |s| {
        assert t[i] == s[i];
      }
    }
  }

  /** An element of a non-empty sequence is its last element or an element of the rest. */
  lemma InInit<T>(s: seq<T>, y: T)
    requires s != []
    ensures y in s <==> y in s[..|s| - 1] || y == s[|s| - 1]
  {
    assert s == s[..|s| - 1] + [s[|s| - 1]];
  }

  /** The elements of a sequence as a set. */
  function Elems<T>(s: seq<T>): set<T>
  {
    set x | x in s
  }

  lemma {:induction false} DistinctCard<T>(s: seq<T>)
    requires Distinct(s)
    ensures |Elems(s)| == |s|
  {
    if s != [] {
      var t := s[..|s| - 1];
      assert Elems(s) == Elems(t) + {s[|s| - 1]};
      assert forall i :: 0 <= i < |t| ==> t[i] != s[|s| - 1];
      assert s[|s| - 1] !in Elems(t);
      DistinctCard(t);
    }
  }

  /** The rows of several arrays, one array after another. */
  function Flatten<T>(ss: seq<seq<T>>): seq<T>
  {
    if ss == [] then [] else Flatten(ss[..|ss| - 1]) + ss[|ss| - 1]
  }

  lemma FlattenLast<T>(ss: seq<seq<T>>, x: T)
    requires ss != []
    ensures x in Flatten(ss) <==> x in Flatten(ss[..|ss| - 1]) || x in ss[|ss| - 1]
  {
  }

  /** Some array holds `x` when the last one does or one of the others. */
  lemma SomeHolds<T>(ss: seq<seq<T>>, init: seq<seq<T>>, x: T)
    requires ss != [] && init == ss[..|ss| - 1]
    ensures (exists i :: 0 <= i < |ss| && x in ss[i]) <==>
      (exists i :: 0 <= i < |init| && x in init[i]) || x in ss[|ss| - 1]
  {
    if exists i :: 0 <= i < |init| && x in init[i] {
      var i :| 0 <= i < |init| && x in init[i];
      assert ss[i] == init[i];
    }
    if exists i :: 0 <= i < |ss| && x in ss[i] {
      var i :| 0 <= i < |ss| && x in ss[i];
      if i < |init| { assert init[i] == ss[i]; }
    }
  }

  /** A row of the flattened arrays is a row of one of them. */
  lemma {:induction false} FlattenMembers<T>(ss: seq<seq<T>>, x: T)
    ensures x in Flatten(ss) <==> exists i :: 0 <= i < |ss| && x in ss[i]
  {
    if ss != [] {
      FlattenMembers(ss[..|ss| - 1], x);
      FlattenLast(ss, x);
      SomeHolds(ss, ss[..|ss| - 1], x);
    }
  }

  lemma FlattenSnoc<T>(ss: seq<seq<T>>, g: nat)
    requires g < |ss|
    ensures Flatten(ss[..g + 1]) == Flatten(ss[..g]) + ss[g]
  {
    assert ss[..g + 1][..g] == ss[..g];
  }

  /** The parts of the elements of `xs`, concatenated in order. */
  function ConcatMap<T, U>(xs: seq<T>, part: T -> seq<U>): seq<U>
  {
    if xs == [] then [] else ConcatMap(xs[..|xs| - 1], part) + part(xs[|xs| - 1])
  }

  /** An element of the concatenated parts is an element of the part of some element of `xs`. */
  lemma {:induction false} ConcatMapMembers<T, U>(xs: seq<T>, part: T -> seq<U>, y: U)
    ensures y in ConcatMap(xs, part) <==> exists i :: 0 <= i < |xs| && y in part(xs[i])
  {
    if xs != [] {
      var init := xs[..|xs| - 1];
      ConcatMapMembers(init, part, y);
      if y in ConcatMap(init, part) {
        var i :| 0 <= i < |init| && y in part(init[i]);
        assert xs[i] == init[i];
      }
      if exists i :: 0 <= i < |xs| && y in part(xs[i]) {
        var i :| 0 <= i < |xs| && y in part(xs[i]);
        if i < |init| { assert init[i] == xs[i]; }
      }
    }
  }

  lemma ConcatMapSnoc<T, U>(xs: seq<T>, part: T -> seq<U>, i: nat)
    requires i < |xs|
    ensures ConcatMap(xs[..i + 1], part) == ConcatMap(xs[..i], part) + part(xs[i])
  {
    assert xs[..i + 1][..i] == xs[..i];
  }

  /** The first `n` elements of `s`, or all of them when there are fewer. */
  function Take<T>(s: seq<T>, n: nat): (r: seq<T>)
    ensures |r| == if |s| < n then |s| else n
    ensures forall i :: 0 <= i < |r| ==> r[i] == s[i]
  {
    if |s| <= n then s else s[..n]
  }

  function Min(a: int, b: int): int
  {
    if a <= b then a else b
  }

  /** The elements of `s` satisfying `p`, in order. */
  function Filter<T>(s: seq<T>, p: T -> bool): (r: seq<T>)
    ensures |r| <= |s|
    ensures forall i :: 0 <= i < |r| ==> r[i] in s && p(r[i])
    ensures forall i :: 0 <= i < |s| && p(s[i]) ==> s[i] in r
  {
    if s == [] then []
    else
      var init := s[..|s| - 1];
      assert s == init + [s[|s| - 1]];
      Filter(init, p) + (if p(s[|s| - 1]) then [s[|s| - 1]] else [])
  }

  lemma {:induction false} FilterDistinct<T>(s: seq<T>, p: T -> bool)
    requires Distinct(s)
    ensures Distinct(Filter(s, p))
  {
    if s != [] {
      DistinctInit(s);
      FilterDistinct(s[..|s| - 1], p);
    }
  }

  /** A prefix of a sequence without repeats has none either, and holds only its elements. */
  lemma TakeDistinct<T>(s: seq<T>, n: nat)
    requires Distinct(s)
    ensures Distinct(Take(s, n)) && forall x :: x in Take(s, n) ==> x in s
  {
  }

  // ---------------------------------------------------------------------
  // Stable sort by an integer key (the JavaScript array sort with a
  // comparator on dates, week numbers or start dates, which is stable).
  // ---------------------------------------------------------------------

  ghost predicate SortedBy<T>(s: seq<T>, key: T -> int)
  {
    forall i, j :: 0 <= i < j < |s| ==> key(s[i]) <= key(s[j])
  }

  ghost predicate KeysDistinct<T>(s: seq<T>, key: T -> int)
  {
    forall i, j :: 0 <= i < j < |s| ==> key(s[i]) != key(s[j])
  }

  /** Inserts `x` after every element whose key is not larger than its own. */
  function Insert<T>(x: T, s: seq<T>, key: T -> int): (r: seq<T>)
    ensures |r| == |s| + 1
    ensures multiset(r) == multiset(s) + multiset{x}
  {
    if s == [] then [x]
    else if key(s[0]) <= key(x) then
      assert s == [s[0]] + s[1..];
      [s[0]] + Insert(x, s[1..], key)
    else
      [x] + s
  }

  lemma {:induction false} InsertSorted<T>(x: T, s: seq<T>, key: T -> int)
    requires SortedBy(s, key)
    ensures SortedBy(Insert(x, s, key), key)
  {
    if s != [] && key(s[0]) <= key(x) {
      var rest := Insert(x, s[1..], key);
      InsertSorted(x, s[1..], key);
      forall i | 0 <= i < |rest| ensures key(s[0]) <= key(rest[i]) {
        assert rest[i] in multiset(rest);
        assert rest[i] == x || rest[i] in multiset(s[1..]);
        if rest[i] != x {
          var k :| 0 <= k < |s[1..]| && s[1..][k] == rest[i];
          assert s[k + 1] == rest[i];
        }
      }
    }
  }

  lemma {:induction false} InsertKeysDistinct<T>(x: T, s: seq<T>, key: T -> int)
    requires KeysDistinct(s, key)
    requires forall i :: 0 <= i < |s| ==> key(s[i]) != key(x)
    ensures KeysDistinct(Insert(x, s, key), key)
  {
    if s != [] && key(s[0]) <= key(x) {
      var rest := Insert(x, s[1..], key);
      InsertKeysDistinct(x, s[1..], key);
      forall i | 0 <= i < |rest| ensures key(s[0]) != key(rest[i]) {
        assert rest[i] in multiset(rest);
        assert rest[i] == x || rest[i] in multiset(s[1..]);
        if rest[i] != x {
          var k :| 0 <= k < |s[1..]| && s[1..][k] == rest[i];
          assert s[k + 1] == rest[i];
        }
      }
    }
  }

  /** Stable insertion sort: the result is ordered by `key` and a permutation of `s`. */
  function SortBy<T>(s: seq<T>, key: T -> int): (r: seq<T>)
    ensures |r| == |s|
    ensures multiset(r) == multiset(s)
    ensures SortedBy(r, key)
  {
    if s == [] then []
    else
      var init := s[..|s| - 1];
      var last := s[|s| - 1];
      assert s == init + [last];
      var sorted := SortBy(init, key);
      InsertSorted(last, sorted, key);
      Insert(last, sorted, key)
  }

  /** Sorting a sequence whose keys are distinct keeps them distinct. */
  lemma {:induction false} SortByKeysDistinct<T>(s: seq<T>, key: T -> int)
    requires KeysDistinct(s, key)
    ensures KeysDistinct(SortBy(s, key), key)
  {
    if s != [] {
      var init := s[..|s| - 1];
      var last := s[|s| - 1];
      assert s == init + [last];
      var sorted := SortBy(init, key);
      SortByKeysDistinct(init, key);
      forall i | 0 <= i < |sorted| ensures key(sorted[i]) != key(last) {
        assert sorted[i] in multiset(init);
        var k :| 0 <= k < |init| && init[k] == sorted[i];
        assert s[k] == sorted[i];
      }
      InsertKeysDistinct(last, sorted, key);
    }
  }

  /** An element whose key is not below any key of `s` goes at the end. */
  lemma {:induction false} InsertLast<T>(x: T, s: seq<T>, key: T -> int)
    requires forall i :: 0 <= i < |s| ==> key(s[i]) <= key(x)
    ensures Insert(x, s, key) == s + [x]
  {
    if s != [] {
      InsertLast(x, s[1..], key);
      assert s == [s[0]] + s[1..];
    }
  }

  /** Sorting an already sorted sequence leaves it as it is. */
  lemma {:induction false} SortBySorted<T>(s: seq<T>, key: T -> int)
    requires SortedBy(s, key)
    ensures SortBy(s, key) == s
  {
    if s != [] {
      var init := s[..|s| - 1];
      var last := s[|s| - 1];
      assert s == init + [last];
      SortBySorted(init, key);
      InsertLast(last, init, key);
    }
  }

  /** The elements of a sorted copy are those of the original. */
  lemma SortByMembers<T>(s: seq<T>, key: T -> int, y: T)
    ensures y in SortBy(s, key) <==> y in s
  {
    var r := SortBy(s, key);
    assert y in r <==> y in multiset(r);
    assert y in s <==> y in multiset(s);
  }

  /** Sorted with distinct keys means strictly ascending. */
  lemma StrictlySorted<T>(s: seq<T>, key: T -> int)
    requires SortedBy(s, key) && KeysDistinct(s, key)
    ensures forall i, j :: 0 <= i < j < |s| ==> key(s[i]) < key(s[j])
  {
  }

  // ---------------------------------------------------------------------
  // Distinct integer keys in ascending order.
  // ---------------------------------------------------------------------

  /** The distinct elements of `xs` in order of first appearance. */
  function Dedup<T(==)>(xs: seq<T>): (r: seq<T>)
    ensures Distinct(r)
    ensures forall i :: 0 <= i < |r| ==> r[i] in xs
    ensures forall i :: 0 <= i < |xs| ==> xs[i] in r
  {
    if xs == [] then []
    else
      var init := xs[..|xs| - 1];
      var last := xs[|xs| - 1];
      var r := Dedup(init);
      assert xs == init + [last];
      if last in r then r
      else
        assert forall i :: 0 <= i < |r| ==> r[i] != last;
        r + [last]
  }

  /** A sequence without repetitions is its own deduplication. */
  lemma {:induction false} DedupDistinct<T>(xs: seq<T>)
    requires Distinct(xs)
    ensures Dedup(xs) == xs
  {
    if xs != [] {
      DistinctInit(xs);
      DedupDistinct(xs[..|xs| - 1]);
    }
  }

  /** One more element: appended when new, dropped when already present. */
  lemma DedupPush<T>(ks: seq<T>, x: T)
    ensures Dedup(ks + [x]) == if x in Dedup(ks) then Dedup(ks) else Dedup(ks) + [x]
  {
    DedupSnoc(ks, x);
    assert x in Elems(Dedup(ks)) <==> x in Dedup(ks);
  }

  lemma DedupTwice<T>(a: seq<T>)
    ensures Dedup(Dedup(a)) == Dedup(a)
  {
    DedupDistinct(Dedup(a));
  }

  /** Sequences with the same deduplication still have one after the same element is appended. */
  lemma DedupSameStep<T>(a: seq<T>, b: seq<T>, x: T)
    requires Dedup(Dedup(a) + b) == Dedup(a + b)
    ensures Dedup(Dedup(a) + (b + [x])) == Dedup(a + (b + [x]))
  {
    var l := Dedup(a) + b;
    var r := a + b;
    assert Dedup(a) + (b + [x]) == l + [x];
    assert a + (b + [x]) == r + [x];
    DedupPush(l, x);
    DedupPush(r, x);
  }

  /** Deduplicating a prefix first changes nothing: repeats are dropped either way. */
  lemma {:induction false} DedupAppend<T>(a: seq<T>, b: seq<T>)
    ensures Dedup(Dedup(a) + b) == Dedup(a + b)
    decreases |b|
  {
    if b == [] {
      DedupTwice(a);
      assert Dedup(a) + b == Dedup(a) && a + b == a;
    } else {
      var b' := b[..|b| - 1];
      var x := b[|b| - 1];
      assert b == b' + [x];
      DedupAppend(a, b');
      DedupSameStep(a, b', x);
    }
  }

  function Id(x: int): int
  {
    x
  }

  /** The distinct elements of `xs`, strictly ascending. */
  function Ascending(xs: seq<int>): (r: seq<int>)
    ensures forall i, j :: 0 <= i < j < |r| ==> r[i] < r[j]
    ensures forall x :: x in r <==> x in xs
  {
    var d := Dedup(xs);
    assert KeysDistinct(d, Id);
    SortByKeysDistinct(d, Id);
    StrictlySorted(SortBy(d, Id), Id);
    forall x ensures x in SortBy(d, Id) <==> x in xs {
      SortByMembers(d, Id, x);
    }
    SortBy(d, Id)
  }

  /** Two strictly ascending sequences with the same elements are equal. */
  lemma {:induction false} AscendingUnique(a: seq<int>, b: seq<int>)
    requires forall i, j :: 0 <= i < j < |a| ==> a[i] < a[j]
    requires forall i, j :: 0 <= i < j < |b| ==> b[i] < b[j]
    requires forall x :: x in a <==> x in b
    ensures a == b
  {
    assert a != [] ==> a[0] in a && a[0] in b;
    assert b != [] ==> b[0] in b && b[0] in a;
    if a != [] && b != [] {
      assert a[0] in b && b[0] in a;
      assert a[0] == b[0] by {
        var i :| 0 <= i < |b| && b[i] == a[0];
        var j :| 0 <= j < |a| && a[j] == b[0];
        assert b[0] <= b[i];
        assert a[0] <= a[j];
      }
      forall x ensures x in a[1..] <==> x in b[1..] {
        if x in a[1..] {
          var i :| 1 <= i < |a| && a[i] == x;
          assert a[0] < x;
          assert x in b;
        }
        if x in b[1..] {
          var i :| 1 <= i < |b| && b[i] == x;
          assert b[0] < x;
          assert x in a;
        }
      }
      AscendingUnique(a[1..], b[1..]);
      assert a == [a[0]] + a[1..] && b == [b[0]] + b[1..];
    }
  }

  // ---------------------------------------------------------------------
  // Keyed lookups: writing every row into a map under its key keeps the last
  // row of each key; looking a key up before writing keeps the first.
  // ---------------------------------------------------------------------

  /** The key of every row, in row order. */
  function KeyList<T, K>(xs: seq<T>, key: T -> K): (ks: seq<K>)
    ensures |ks| == |xs| && forall i :: 0 <= i < |xs| ==> ks[i] == key(xs[i])
  {
    seq(|xs|, i requires 0 <= i < |xs| => key(xs[i]))
  }

  lemma KeyListSnoc<T, K>(xs: seq<T>, x: T, key: T -> K)
    ensures KeyList(xs + [x], key) == KeyList(xs, key) + [key(x)]
  {
  }

  lemma ElemsPush<T>(s: seq<T>, x: T)
    ensures Elems(s + [x]) == Elems(s) + {x}
  {
  }

  /** The last row whose key is `k`. */
  function LastBy<T, K(==)>(xs: seq<T>, key: T -> K, k: K): Option<T>
  {
    if xs == [] then None
    else if key(xs[|xs| - 1]) == k then Some(xs[|xs| - 1])
    else LastBy(xs[..|xs| - 1], key, k)
  }

  /** `LastBy` is `None` exactly when no row has key `k`, and otherwise the row no later row with `k` follows. */
  lemma {:induction false} LastByIsLast<T, K>(xs: seq<T>, key: T -> K, k: K)
    ensures LastBy(xs, key, k).None? <==> k !in KeyList(xs, key)
    ensures LastBy(xs, key, k).Some? ==>
      exists i :: 0 <= i < |xs| && xs[i] == LastBy(xs, key, k).value && key(xs[i]) == k &&
        forall j :: i < j < |xs| ==> key(xs[j]) != k
  {
    if xs != [] {
      var init := xs[..|xs| - 1];
      LastByIsLast(init, key, k);
      assert KeyList(xs, key) == KeyList(init, key) + [key(xs[|xs| - 1])];
      if key(xs[|xs| - 1]) != k && LastBy(init, key, k).Some? {
        var i :| 0 <= i < |init| && init[i] == LastBy(init, key, k).value && key(init[i]) == k &&
          forall j :: i < j < |init| ==> key(init[j]) != k;
        assert xs[i] == init[i];
      }
    }
  }

  /** The first row whose key is `k`. */
  function FirstBy<T, K(==)>(xs: seq<T>, key: T -> K, k: K): Option<T>
  {
    if xs == [] then None
    else if key(xs[0]) == k then Some(xs[0])
    else FirstBy(xs[1..], key, k)
  }

  /** Appending a row leaves the first row of each key that already occurs unchanged. */
  lemma {:induction false} FirstBySnoc<T, K>(xs: seq<T>, x: T, key: T -> K, k: K)
    ensures FirstBy(xs + [x], key, k) == if FirstBy(xs, key, k).Some? then FirstBy(xs, key, k)
      else if key(x) == k then Some(x) else None
  {
    if xs != [] {
      assert (xs + [x])[1..] == xs[1..] + [x];
      FirstBySnoc(xs[1..], x, key, k);
    }
  }

  /** `FirstBy` is `None` exactly when no row has key `k`, and otherwise a row with key `k` no earlier row has. */
  lemma {:induction false} FirstByIsFirst<T, K>(xs: seq<T>, key: T -> K, k: K)
    ensures FirstBy(xs, key, k).None? <==> k !in KeyList(xs, key)
    ensures FirstBy(xs, key, k).Some? ==>
      exists i :: 0 <= i < |xs| && xs[i] == FirstBy(xs, key, k).value && key(xs[i]) == k &&
        forall j :: 0 <= j < i ==> key(xs[j]) != k
  {
    if xs != [] {
      var tail := xs[1..];
      FirstByIsFirst(tail, key, k);
      assert KeyList(xs, key) == [key(xs[0])] + KeyList(tail, key);
      if key(xs[0]) != k && FirstBy(tail, key, k).Some? {
        var i :| 0 <= i < |tail| && tail[i] == FirstBy(tail, key, k).value && key(tail[i]) == k &&
          forall j :: 0 <= j < i ==> key(tail[j]) != k;
        assert xs[i + 1] == tail[i];
        forall j | 0 <= j < i + 1 ensures key(xs[j]) != k {
          if j > 0 { assert xs[j] == tail[j - 1]; }
        }
      }
    }
  }

  /** The state of a map written under the key of each of the rows `xs`. */
  ghost predicate Indexed<T, K(!new)>(m: map<K, T>, order: seq<K>, xs: seq<T>, key: T -> K)
  {
    && order == Dedup(KeyList(xs, key)) && m.Keys == Elems(order)
    && forall k :: LastBy(xs, key, k) == if k in m then Some(m[k]) else None
  }

  /** Deduplicating one more element appends it when it is new. */
  lemma {:induction false} DedupSnoc<T>(ks: seq<T>, k: T)
    ensures Dedup(ks + [k]) == if k in Elems(Dedup(ks)) then Dedup(ks) else Dedup(ks) + [k]
  {
    assert (ks + [k])[..|ks|] == ks;
  }

  lemma {:induction false} LastBySnoc<T, K>(xs: seq<T>, x: T, key: T -> K, k: K)
    ensures LastBy(xs + [x], key, k) == if key(x) == k then Some(x) else LastBy(xs, key, k)
  {
    assert (xs + [x])[..|xs|] == xs;
  }

  /** The first-appearance order of the keys after one more row. */
  lemma KeyOrderStep<T, K>(order: seq<K>, xs: seq<T>, x: T, key: T -> K)
    requires order == Dedup(KeyList(xs, key))
    ensures key(x) in Elems(order) ==> Dedup(KeyList(xs + [x], key)) == order
    ensures key(x) !in Elems(order) ==> Dedup(KeyList(xs + [x], key)) == order + [key(x)]
  {
    KeyListSnoc(xs, x, key);
    DedupSnoc(KeyList(xs, key), key(x));
  }

  /** The keys of a map after one more write, against its insertion order. */
  lemma MapKeysStep<K, V>(m: map<K, V>, order: seq<K>, k: K, v: V)
    requires m.Keys == Elems(order)
    ensures k in m ==> m[k := v].Keys == Elems(order)
    ensures k !in m ==> m[k := v].Keys == Elems(order + [k])
  {
    if k in m {
      assert m[k := v].Keys == m.Keys;
    } else {
      ElemsPush(order, k);
    }
  }

  lemma IndexOrderStep<T, K(!new), V>(m: map<K, V>, order: seq<K>, xs: seq<T>, x: T, v: V, key: T -> K)
    requires order == Dedup(KeyList(xs, key)) && m.Keys == Elems(order)
    ensures key(x) in m ==> order == Dedup(KeyList(xs + [x], key)) && m[key(x) := v].Keys == Elems(order)
    ensures key(x) !in m ==> order + [key(x)] == Dedup(KeyList(xs + [x], key)) && m[key(x) := v].Keys == Elems(order + [key(x)])
  {
    KeyOrderStep(order, xs, x, key);
    MapKeysStep(m, order, key(x), v);
  }

  lemma IndexLastStep<T, K(!new)>(m: map<K, T>, xs: seq<T>, x: T, key: T -> K)
    requires forall k :: LastBy(xs, key, k) == if k in m then Some(m[k]) else None
    ensures forall k :: LastBy(xs + [x], key, k) == if k in m[key(x) := x] then Some(m[key(x) := x][k]) else None
  {
    forall k ensures LastBy(xs + [x], key, k) == if k in m[key(x) := x] then Some(m[key(x) := x][k]) else None {
      LastBySnoc(xs, x, key, k);
    }
  }

  lemma IndexStep<T, K(!new)>(m: map<K, T>, order: seq<K>, xs: seq<T>, j: nat, key: T -> K)
    requires j < |xs| && Indexed(m, order, xs[..j], key)
    ensures var x := xs[j];
      Indexed(m[key(x) := x], if key(x) in m then order else order + [key(x)], xs[..j + 1], key)
  {
    assert xs[..j + 1] == xs[..j] + [xs[j]];
    IndexOrderStep(m, order, xs[..j], xs[j], xs[j], key);
    IndexLastStep(m, xs[..j], xs[j], key);
  }

  /**
   * Every row written into a map under its key: the map holds the last row of each
   * key, and its keys in insertion order are the keys of the rows in order of
   * first appearance.
   */
  method IndexBy<T, K(!new)>(xs: seq<T>, key: T -> K) returns (m: map<K, T>, order: seq<K>)
    ensures order == Dedup(KeyList(xs, key)) && m.Keys == Elems(order)
    ensures forall k :: LastBy(xs, key, k) == if k in m then Some(m[k]) else None
  {
    m, order := map[], [];
    for j := 0 to |xs|
      invariant Indexed(m, order, xs[..j], key)
    {
      var x := xs[j];
      IndexStep(m, order, xs, j, key);
      if key(x) !in m {
        order := order + [key(x)];
      }
      m := m[key(x) := x];
    }
    assert xs[..|xs|] == xs;
  }
}
