/**
 * The series route of the analytics page: per-account post-date sums, the
 * accrual delta calculator over cumulative metric snapshots, the cutoff mask,
 * and the per-day post-date totals of the tracked accounts.
 */
module AnalyticsSeries {
  import opened Common
  import opened Days
  import opened Posts
  import opened Grouping

  /** `fillZeros`: one zero point per day key. */
  function ZeroPoints(keys: seq<Day>): (ps: seq<Point>)
    ensures |ps| == |keys|
    ensures forall i :: 0 <= i < |keys| ==> ps[i] == Point(keys[i], Zero)
  {
    seq(|keys|, i requires 0 <= i < |keys| => Point(keys[i], Zero))
  }

  // ---------------------------------------------------------------------
  // Post-date mode: one series per tracked account.
  // ---------------------------------------------------------------------

  /** The counters a row adds to account `u`: its own when it is `u`'s row, none otherwise. */
  function OwnMetrics(u: string, withSharesSaves: bool): PostRow -> Metrics
  {
    (r: PostRow) => if r.username == u then RowMetrics(r, withSharesSaves) else Zero
  }

  /** The counters of `u`'s rows posted on day `d`. */
  function AccountDaySum(rows: seq<PostRow>, u: string, d: Day, withSharesSaves: bool): Metrics
  {
    GroupSum(rows, PostDateKey, OwnMetrics(u, withSharesSaves), Some(d))
  }

  /** The series of account `u`: one point per day key. */
  function AccountSeries(rows: seq<PostRow>, keys: seq<Day>, u: string, withSharesSaves: bool): (ps: seq<Point>)
    ensures |ps| == |keys|
    ensures forall i :: 0 <= i < |keys| ==>
      ps[i] == Point(keys[i], AccountDaySum(rows, u, keys[i], withSharesSaves))
  {
    seq(|keys|, i requires 0 <= i < |keys| => Point(keys[i], AccountDaySum(rows, u, keys[i], withSharesSaves)))
  }

  lemma AccountDaySumStep(rows: seq<PostRow>, j: nat, u: string, d: Day, withSharesSaves: bool)
    requires j < |rows|
    ensures AccountDaySum(rows[..j + 1], u, d, withSharesSaves) ==
      if rows[j].username == u && rows[j].postDate == Some(d)
      then Add(AccountDaySum(rows[..j], u, d, withSharesSaves), RowMetrics(rows[j], withSharesSaves))
      else AccountDaySum(rows[..j], u, d, withSharesSaves)
  {
    assert rows[..j + 1] == rows[..j] + [rows[j]];
    GroupSumSnoc(rows[..j], rows[j], PostDateKey, OwnMetrics(u, withSharesSaves), Some(d));
    AddZero(AccountDaySum(rows[..j], u, d, withSharesSaves));
  }

  /**
   * Post-date mode for one platform: a zero series over the day keys for every
   * tracked account, then every row of a tracked account adds its counters to
   * the point of its `post_date`; rows of other usernames are skipped. The
   * query selects only rows whose `post_date` lies in the window.
   */
  method PostDateByAccount(keys: seq<Day>, start: Day, end: Day, tracked: seq<string>,
                           rows: seq<PostRow>, withSharesSaves: bool)
    returns (byAccount: map<string, seq<Point>>)
    requires IsDayRange(keys, start, end)
    requires forall r :: r in rows ==> r.postDate.Some? && start <= r.postDate.value <= end
    ensures byAccount.Keys == Elems(tracked)
    ensures forall u :: u in byAccount ==> byAccount[u] == AccountSeries(rows, keys, u, withSharesSaves)
  {
    var m: map<string, seq<Point>> := map[];
    for t := 0 to |tracked|
      invariant m.Keys == Elems(tracked[..t])
      invariant forall u :: u in m ==> m[u] == ZeroPoints(keys)
    {
      assert tracked[..t + 1] == tracked[..t] + [tracked[t]];
      m := m[tracked[t] := ZeroPoints(keys)];
    }
    assert tracked[..|tracked|] == tracked;
    for j := 0 to |rows|
      invariant m.Keys == Elems(tracked)
      invariant forall u :: u in m ==> |m[u]| == |keys|
      invariant forall u, i :: u in m && 0 <= i < |keys| ==>
        m[u][i] == Point(keys[i], AccountDaySum(rows[..j], u, keys[i], withSharesSaves))
    {
      var r := rows[j];
      assert r in rows;
      forall u, i | u in m && 0 <= i < |keys|
        ensures AccountDaySum(rows[..j + 1], u, keys[i], withSharesSaves) ==
          if r.username == u && r.postDate == Some(keys[i])
          then Add(AccountDaySum(rows[..j], u, keys[i], withSharesSaves), RowMetrics(r, withSharesSaves))
          else AccountDaySum(rows[..j], u, keys[i], withSharesSaves)
      {
        AccountDaySumStep(rows, j, u, keys[i], withSharesSaves);
      }
      if r.username in m {
        var i := r.postDate.value - start;
        var cur := m[r.username][i];
        m := m[r.username := m[r.username][i := Point(cur.date, Add(cur.m, RowMetrics(r, withSharesSaves)))]];
      }
    }
    assert rows[..|rows|] == rows;
    byAccount := m;
  }

  /**
   * An account's series adds up to all of that account's rows: no row inside
   * the window is lost or counted twice.
   */
  lemma AccountSeriesTotal(rows: seq<PostRow>, keys: seq<Day>, start: Day, end: Day, u: string,
                           withSharesSaves: bool)
    requires IsDayRange(keys, start, end)
    requires forall r :: r in rows ==> r.postDate.Some? && start <= r.postDate.value <= end
    ensures Total(MetricsOf(AccountSeries(rows, keys, u, withSharesSaves))) ==
      TotalOf(rows, OwnMetrics(u, withSharesSaves))
  {
    var ks := SomeKeys(keys);
    SomeKeysDistinct(keys, start, end);
    forall r | r in rows ensures PostDateKey(r) in ks {
      SomeKeysMembers(keys, start, end, r.postDate);
    }
    assert MetricsOf(AccountSeries(rows, keys, u, withSharesSaves)) ==
      Groups(ks, rows, PostDateKey, OwnMetrics(u, withSharesSaves));
    SeriesTotal(ks, rows, PostDateKey, OwnMetrics(u, withSharesSaves));
  }

  // ---------------------------------------------------------------------
  // Post-date totals of the tracked accounts (accrual mode's replacement
  // series): views, likes and comments per day key.
  // ---------------------------------------------------------------------

  /** The summed views, likes and comments of the rows whose day is `d`. */
  function DaySeries(rows: seq<PostRow>, keys: seq<Day>, dayOf: PostRow -> Option<Day>): (ps: seq<Point>)
    ensures |ps| == |keys|
    ensures forall i :: 0 <= i < |keys| ==>
      ps[i] == Point(keys[i], GroupSum(rows, dayOf, BasicMetrics, Some(keys[i])))
  {
    seq(|keys|, i requires 0 <= i < |keys| => Point(keys[i], GroupSum(rows, dayOf, BasicMetrics, Some(keys[i]))))
  }

  /** `m` holds, for each key, the summed counters of the rows `seen` whose day is that key. */
  ghost predicate DaySums(m: seq<Metrics>, keys: seq<Day>, seen: seq<PostRow>, dayOf: PostRow -> Option<Day>)
  {
    |m| == |keys| && forall i :: 0 <= i < |keys| ==> m[i] == GroupSum(seen, dayOf, BasicMetrics, Some(keys[i]))
  }

  /** The updated point `i` after one more row. */
  function DayStep(m: seq<Metrics>, start: Day, end: Day, r: PostRow, dayOf: PostRow -> Option<Day>): seq<Metrics>
  {
    var d := dayOf(r);
    if d.Some? && start <= d.value <= end && d.value - start < |m| then m[d.value - start := Add(m[d.value - start], BasicMetrics(r))] else m
  }

  /** Point `i` gains the row's counters exactly when the row's day is key `i`. */
  lemma DayStepAt(m: seq<Metrics>, keys: seq<Day>, start: Day, end: Day, r: PostRow,
                  dayOf: PostRow -> Option<Day>, i: nat)
    requires |m| == |keys| && i < |keys| && keys[i] == start + i && start + i <= end
    ensures DayStep(m, start, end, r, dayOf)[i] == if dayOf(r) == Some(keys[i]) then Add(m[i], BasicMetrics(r)) else m[i]
  {
    var d := dayOf(r);
    if d.Some? && start <= d.value <= end && d.value - start < |m| {
      var k := d.value - start;
      assert DayStep(m, start, end, r, dayOf) == m[k := Add(m[k], BasicMetrics(r))];
      if k == i {
        assert d == Some(keys[i]);
      } else {
        assert d.value != keys[i];
      }
    } else {
      assert DayStep(m, start, end, r, dayOf) == m;
      assert d != Some(start + i);
    }
  }

  lemma DayPointStep(m: seq<Metrics>, keys: seq<Day>, start: Day, end: Day, seen: seq<PostRow>, r: PostRow,
                     dayOf: PostRow -> Option<Day>, i: nat)
    requires |m| == |keys| && i < |keys| && keys[i] == start + i && start + i <= end
    requires m[i] == GroupSum(seen, dayOf, BasicMetrics, Some(keys[i]))
    ensures DayStep(m, start, end, r, dayOf)[i] == GroupSum(seen + [r], dayOf, BasicMetrics, Some(keys[i]))
  {
    GroupSumSnoc(seen, r, dayOf, BasicMetrics, Some(keys[i]));
    DayStepAt(m, keys, start, end, r, dayOf, i);
  }

  /** One row added: its counters go to the point of its day, when that day is a key. */
  lemma DaySumsStep(m: seq<Metrics>, keys: seq<Day>, start: Day, end: Day, rows: seq<PostRow>, j: nat,
                    dayOf: PostRow -> Option<Day>)
    requires IsDayRange(keys, start, end) && j < |rows|
    requires DaySums(m, keys, rows[..j], dayOf)
    ensures DaySums(DayStep(m, start, end, rows[j], dayOf), keys, rows[..j + 1], dayOf)
  {
    assert rows[..j + 1] == rows[..j] + [rows[j]];
    forall i | 0 <= i < |keys|
      ensures DayStep(m, start, end, rows[j], dayOf)[i] == GroupSum(rows[..j + 1], dayOf, BasicMetrics, Some(keys[i]))
    {
      DayPointStep(m, keys, start, end, rows[..j], rows[j], dayOf, i);
    }
  }

  /** Before any row every point is zero. */
  lemma DaySumsInit(m: seq<Metrics>, keys: seq<Day>, rows: seq<PostRow>, dayOf: PostRow -> Option<Day>)
    requires |m| == |keys| && forall i :: 0 <= i < |m| ==> m[i] == Zero
    ensures DaySums(m, keys, rows[..0], dayOf)
  {
    assert rows[..0] == [];
  }

  /**
   * A zero entry for every window day, then each row added to the entry of
   * its day: a row whose day `dayOf(r)` is not a
   * key (outside the window, or no day at all) is skipped. TikTok rows are
   * keyed with `PostDateKey`, Instagram rows (taken and legacy, concatenated)
   * with `DayKey`.
   */
  method DayTotals(keys: seq<Day>, start: Day, end: Day, rows: seq<PostRow>, dayOf: PostRow -> Option<Day>)
    returns (ps: seq<Point>)
    requires IsDayRange(keys, start, end)
    ensures ps == DaySeries(rows, keys, dayOf)
  {
    var m := seq(|keys|, i requires 0 <= i < |keys| => Zero);
    DaySumsInit(m, keys, rows, dayOf);
    for j := 0 to |rows|
      invariant DaySums(m, keys, rows[..j], dayOf)
    {
      var r := rows[j];
      DaySumsStep(m, keys, start, end, rows, j, dayOf);
      ghost var m0 := m;
      var d := dayOf(r);
      if d.Some? && start <= d.value <= end {
        var i := d.value - start;
        m := m[i := Add(m[i], BasicMetrics(r))];
      }
      assert m == DayStep(m0, start, end, r, dayOf);
    }
    assert rows[..|rows|] == rows;
    ps := seq(|keys|, i requires 0 <= i < |keys| => Point(keys[i], m[i]));
  }

  /** When every row's day is a key, the per-day totals add up to all rows. */
  lemma DaySeriesTotal(rows: seq<PostRow>, keys: seq<Day>, start: Day, end: Day, dayOf: PostRow -> Option<Day>)
    requires IsDayRange(keys, start, end)
    requires forall r :: r in rows ==> dayOf(r).Some? && start <= dayOf(r).value <= end
    ensures Total(MetricsOf(DaySeries(rows, keys, dayOf))) == TotalOf(rows, BasicMetrics)
  {
    var ks := SomeKeys(keys);
    SomeKeysDistinct(keys, start, end);
    forall r | r in rows ensures dayOf(r) in ks {
      SomeKeysMembers(keys, start, end, dayOf(r));
    }
    assert MetricsOf(DaySeries(rows, keys, dayOf)) == Groups(ks, rows, dayOf, BasicMetrics);
    SeriesTotal(ks, rows, dayOf, BasicMetrics);
  }

  /** A row whose day is not a key leaves every point unchanged. */
  lemma DaySeriesSkips(rows: seq<PostRow>, r: PostRow, keys: seq<Day>, start: Day, end: Day,
                       dayOf: PostRow -> Option<Day>)
    requires IsDayRange(keys, start, end)
    requires dayOf(r).None? || dayOf(r).value < start || dayOf(r).value > end
    ensures DaySeries(rows + [r], keys, dayOf) == DaySeries(rows, keys, dayOf)
  {
    forall i | 0 <= i < |keys|
      ensures GroupSum(rows + [r], dayOf, BasicMetrics, Some(keys[i])) == GroupSum(rows, dayOf, BasicMetrics, Some(keys[i]))
    {
      GroupSumSnoc(rows, r, dayOf, BasicMetrics, Some(keys[i]));
    }
  }

  // ---------------------------------------------------------------------
  // Accrual mode: daily deltas of cumulative snapshots.
  // ---------------------------------------------------------------------

  /** A row of `social_metrics_history`; `capturedAt` is in seconds since 1970-01-01 UTC. */
  datatype Snapshot = Snapshot(uid: string, capturedAt: int,
                               views: Num, likes: Num, comments: Num, shares: Num, saves: Num)

  /** The UTC day of a timestamp (the first ten characters of its ISO form). */
  function DayOf(ts: int): Day
  {
    ts / 86400
  }

  /** A snapshot's counters, each missing one read as 0. */
  function SnapMetrics(s: Snapshot): Metrics
  {
    Metrics(Val(s.views), Val(s.likes), Val(s.comments), Val(s.shares), Val(s.saves))
  }

  predicate Captures(s: Snapshot, u: string, d: Day)
  {
    s.uid == u && DayOf(s.capturedAt) == d
  }

  /** The last row, in query order, of user `u` captured on day `d`. */
  function LastSnap(rows: seq<Snapshot>, u: string, d: Day): Option<Snapshot>
  {
    if rows == [] then None
    else if Captures(rows[|rows| - 1], u, d) then Some(rows[|rows| - 1])
    else LastSnap(rows[..|rows| - 1], u, d)
  }

  /** `LastSnap` is the snapshot of the last matching row, and `None` exactly when no row matches. */
  lemma {:induction false} LastSnapIsLast(rows: seq<Snapshot>, u: string, d: Day)
    ensures LastSnap(rows, u, d).None? <==> forall i :: 0 <= i < |rows| ==> !Captures(rows[i], u, d)
    ensures LastSnap(rows, u, d).Some? ==>
      exists i :: 0 <= i < |rows| && rows[i] == LastSnap(rows, u, d).value && Captures(rows[i], u, d) &&
        forall k :: i < k < |rows| ==> !Captures(rows[k], u, d)
  {
    if rows != [] {
      var init := rows[..|rows| - 1];
      LastSnapIsLast(init, u, d);
      if !Captures(rows[|rows| - 1], u, d) {
        assert forall i :: 0 <= i < |init| ==> init[i] == rows[i];
        if LastSnap(init, u, d).Some? {
          var i :| 0 <= i < |init| && init[i] == LastSnap(init, u, d).value && Captures(init[i], u, d) &&
            forall k :: i < k < |init| ==> !Captures(init[k], u, d);
          assert rows[i] == init[i];
        }
      } else {
        assert rows[|rows| - 1] == LastSnap(rows, u, d).value;
      }
    }
  }

  /**
   * The rows arrive ordered by user and then by `captured_at`, so the
   * snapshot kept for a day is the latest one captured that day.
   */
  lemma LastSnapIsLatest(rows: seq<Snapshot>, u: string, d: Day, i: nat)
    requires forall a, b :: 0 <= a < b < |rows| && rows[a].uid == rows[b].uid ==>
      rows[a].capturedAt <= rows[b].capturedAt
    requires i < |rows| && Captures(rows[i], u, d)
    ensures LastSnap(rows, u, d).Some? && rows[i].capturedAt <= LastSnap(rows, u, d).value.capturedAt
  {
    LastSnapIsLast(rows, u, d);
    var k :| 0 <= k < |rows| && rows[k] == LastSnap(rows, u, d).value && Captures(rows[k], u, d) &&
      forall k' :: k < k' < |rows| ==> !Captures(rows[k'], u, d);
    assert i <= k;
  }

  /** The day map of user `u`, empty when the user has no snapshot. */
  function Lookup(per: map<string, map<Day, Snapshot>>, u: string): map<Day, Snapshot>
  {
    if u in per then per[u] else map[]
  }

  /** The snapshot a day map holds for `d`, `None` when it holds none. */
  function Get(m: map<Day, Snapshot>, d: Day): Option<Snapshot>
  {
    if d in m then Some(m[d]) else None
  }

  /**
   * The per-user, per-day map, written for every row in order, so
   * a later row of the same user and day overwrites an earlier one.
   */
  method LastByDay(rows: seq<Snapshot>) returns (per: map<string, map<Day, Snapshot>>)
    ensures forall u, d :: Get(Lookup(per, u), d) == LastSnap(rows, u, d)
  {
    per := map[];
    for j := 0 to |rows|
      invariant forall u, d :: Get(Lookup(per, u), d) == LastSnap(rows[..j], u, d)
    {
      var r := rows[j];
      assert rows[..j + 1][..j] == rows[..j];
      var m := if r.uid in per then per[r.uid] else map[];
      per := per[r.uid := m[DayOf(r.capturedAt) := r]];
    }
    assert rows[..|rows|] == rows;
  }

  /**
   * The day whose snapshot `prev` holds when the loop reaches key `i`: the
   * latest key before `i` that has a snapshot, else the day before the
   * window when it has one, else none.
   */
  function PrevDay(byDay: map<Day, Snapshot>, keys: seq<Day>, prevDay: Day, i: nat): (p: Option<Day>)
    requires i <= |keys|
    ensures p.Some? ==> p.value in byDay
  {
    if i == 0 then (if prevDay in byDay then Some(prevDay) else None)
    else if keys[i - 1] in byDay then Some(keys[i - 1])
    else PrevDay(byDay, keys, prevDay, i - 1)
  }

  function Prev(byDay: map<Day, Snapshot>, keys: seq<Day>, prevDay: Day, i: nat): Option<Snapshot>
    requires i <= |keys|
  {
    var p := PrevDay(byDay, keys, prevDay, i);
    if p.Some? then Some(byDay[p.value]) else None
  }

  /**
   * One day's delta: nothing without a snapshot that day; the clamped
   * difference to the previous snapshot when there is one; the clamped
   * absolute values on a cold start.
   */
  function DayDelta(cur: Option<Snapshot>, prev: Option<Snapshot>): (m: Metrics)
    ensures NonNeg(m)
    ensures cur.None? ==> m == Zero
  {
    if cur.None? then Zero
    else if prev.Some? then ClampDelta(SnapMetrics(cur.value), SnapMetrics(prev.value))
    else Clamp(SnapMetrics(cur.value))
  }

  /** Day `i` of the accrual series. */
  function AccrualPoint(byDay: map<Day, Snapshot>, keys: seq<Day>, prevDay: Day, i: nat): Point
    requires i < |keys|
  {
    Point(keys[i], DayDelta(Get(byDay, keys[i]), Prev(byDay, keys, prevDay, i)))
  }

  /** The accrual series of one user: one point per day key, every counter non-negative. */
  function AccrualPoints(byDay: map<Day, Snapshot>, keys: seq<Day>, prevDay: Day): (ps: seq<Point>)
    ensures |ps| == |keys|
    ensures forall i :: 0 <= i < |keys| ==> ps[i].date == keys[i] && NonNeg(ps[i].m)
  {
    seq(|keys|, i requires 0 <= i < |keys| => AccrualPoint(byDay, keys, prevDay, i))
  }

  /** Passing key `i` moves `prev` to that day's snapshot when it has one. */
  lemma PrevStep(byDay: map<Day, Snapshot>, keys: seq<Day>, prevDay: Day, i: nat)
    requires i < |keys|
    ensures Prev(byDay, keys, prevDay, i + 1) ==
      if keys[i] in byDay then Some(byDay[keys[i]]) else Prev(byDay, keys, prevDay, i)
  {
  }

  /**
   * The delta loop of `collect` for one user: `prev` starts at the snapshot of
   * the day before the window; a key with a snapshot gets its delta written
   * into its zero point and becomes `prev`.
   */
  method AccrualSeries(byDay: map<Day, Snapshot>, keys: seq<Day>, prevDay: Day) returns (series: seq<Point>)
    ensures series == AccrualPoints(byDay, keys, prevDay)
  {
    series := ZeroPoints(keys);
    var prev := Get(byDay, prevDay);
    for i := 0 to |keys|
      invariant |series| == |keys|
      invariant prev == Prev(byDay, keys, prevDay, i)
      invariant forall k :: 0 <= k < i ==> series[k] == AccrualPoint(byDay, keys, prevDay, k)
      invariant forall k :: i <= k < |keys| ==> series[k] == Point(keys[k], Zero)
    {
      var cur := Get(byDay, keys[i]);
      if cur.Some? && prev.Some? {
        series := series[i := Point(keys[i], ClampDelta(SnapMetrics(cur.value), SnapMetrics(prev.value)))];
      } else if cur.Some? {
        series := series[i := Point(keys[i], Clamp(SnapMetrics(cur.value)))];
      }
      PrevStep(byDay, keys, prevDay, i);
      if cur.Some? {
        prev := cur;
      }
    }
  }

  /**
   * `prev` carries over gap days: it is the snapshot of the latest earlier key
   * that has one, or of the day before the window when no earlier key has
   * one; it is absent exactly when neither exists (the cold start).
   */
  lemma {:induction false} PrevDayIsLatest(byDay: map<Day, Snapshot>, keys: seq<Day>, prevDay: Day, i: nat)
    requires i <= |keys|
    ensures PrevDay(byDay, keys, prevDay, i).None? <==>
      prevDay !in byDay && forall j :: 0 <= j < i ==> keys[j] !in byDay
    ensures PrevDay(byDay, keys, prevDay, i).Some? ==>
      var p := PrevDay(byDay, keys, prevDay, i).value;
      (exists j :: 0 <= j < i && p == keys[j] && forall k :: j < k < i ==> keys[k] !in byDay) ||
      (p == prevDay && forall j :: 0 <= j < i ==> keys[j] !in byDay)
  {
    if i > 0 && keys[i - 1] !in byDay {
      PrevDayIsLatest(byDay, keys, prevDay, i - 1);
    }
  }

  /**
   * Day `i` of the accrual series: zero on a gap day; the clamped growth
   * since the latest earlier key with a snapshot; the clamped growth since
   * the day before the window when no earlier key has a snapshot; and the
   * clamped values themselves when there is no earlier snapshot at all.
   */
  lemma AccrualPointMeaning(byDay: map<Day, Snapshot>, keys: seq<Day>, prevDay: Day, i: nat, j: nat)
    requires i < |keys|
    ensures keys[i] !in byDay ==> AccrualPoints(byDay, keys, prevDay)[i].m == Zero
    ensures keys[i] in byDay && j < i && keys[j] in byDay && (forall k :: j < k < i ==> keys[k] !in byDay) ==>
      AccrualPoints(byDay, keys, prevDay)[i].m == ClampDelta(SnapMetrics(byDay[keys[i]]), SnapMetrics(byDay[keys[j]]))
    ensures keys[i] in byDay && prevDay in byDay && (forall k :: 0 <= k < i ==> keys[k] !in byDay) ==>
      AccrualPoints(byDay, keys, prevDay)[i].m == ClampDelta(SnapMetrics(byDay[keys[i]]), SnapMetrics(byDay[prevDay]))
    ensures keys[i] in byDay && prevDay !in byDay && (forall k :: 0 <= k < i ==> keys[k] !in byDay) ==>
      AccrualPoints(byDay, keys, prevDay)[i].m == Clamp(SnapMetrics(byDay[keys[i]]))
  {
    PrevDayIsLatest(byDay, keys, prevDay, i);
  }

  /** The snapshot of the worked example: only views, captured at midnight of day `d`. */
  function ViewsSnap(d: Day, v: int): Snapshot
  {
    Snapshot("u", d * 86400, Some(v), None, None, None, None)
  }

  /**
   * Views 100, 150 and 140 on 2024-01-01 to 2024-01-03 (days 19723 to
   * 19725) with nothing the day before: a cold start of 100, a growth of
   * 50, and a fall clamped to 0.
   */
  lemma AccrualExample()
    ensures var byDay := map[19723 := ViewsSnap(19723, 100), 19724 := ViewsSnap(19724, 150), 19725 := ViewsSnap(19725, 140)];
      var ps := AccrualPoints(byDay, [19723, 19724, 19725], 19722);
      ps[0].m.views == 100 && ps[1].m.views == 50 && ps[2].m.views == 0
  {
    var byDay := map[19723 := ViewsSnap(19723, 100), 19724 := ViewsSnap(19724, 150), 19725 := ViewsSnap(19725, 140)];
    var keys := [19723, 19724, 19725];
    ExamplePoint(byDay, keys, 0, 0, 100, 100);
    ExamplePoint(byDay, keys, 1, 100, 150, 50);
    ExamplePoint(byDay, keys, 2, 150, 140, 0);
  }

  /** Point `i` of the worked example, from the views before it and on its day. */
  lemma ExamplePoint(byDay: map<Day, Snapshot>, keys: seq<Day>, i: nat, before: int, on: int, delta: int)
    requires byDay == map[19723 := ViewsSnap(19723, 100), 19724 := ViewsSnap(19724, 150), 19725 := ViewsSnap(19725, 140)]
    requires keys == [19723, 19724, 19725]
    requires (i == 0 && on == 100 && delta == 100) || (i == 1 && before == 100 && on == 150 && delta == 50) ||
             (i == 2 && before == 150 && on == 140 && delta == 0)
    ensures AccrualPoints(byDay, keys, 19722)[i].m.views == delta
  {
    assert 19722 !in byDay && keys[i] in byDay && byDay[keys[i]] == ViewsSnap(keys[i], on);
    assert SnapMetrics(ViewsSnap(keys[i], on)).views == on;
    if i == 0 {
      AccrualPointMeaning(byDay, keys, 19722, 0, 0);
    } else {
      assert byDay[keys[i - 1]] == ViewsSnap(keys[i - 1], before);
      assert SnapMetrics(ViewsSnap(keys[i - 1], before)).views == before;
      AccrualPointMeaning(byDay, keys, 19722, i, i - 1);
    }
  }


  /** Within a day range the previous snapshot's day lies before key `i`. */
  lemma {:induction false} PrevDayBefore(byDay: map<Day, Snapshot>, keys: seq<Day>, start: Day, end: Day, i: nat)
    requires IsDayRange(keys, start, end) && i <= |keys|
    ensures PrevDay(byDay, keys, start - 1, i).Some? ==>
      start - 1 <= PrevDay(byDay, keys, start - 1, i).value < start + i
  {
    if i > 0 && keys[i - 1] !in byDay {
      PrevDayBefore(byDay, keys, start, end, i - 1);
    }
  }

  /** Every snapshot of a later day has counters at least those of an earlier day. */
  ghost predicate Monotone(byDay: map<Day, Snapshot>)
  {
    forall d1, d2 :: d1 in byDay && d2 in byDay && d1 <= d2 ==>
      Le(SnapMetrics(byDay[d1]), SnapMetrics(byDay[d2]))
  }

  lemma ClampDeltaBounds(cur: Metrics, prev: Metrics)
    ensures Le(Sub(cur, prev), ClampDelta(cur, prev))
    ensures Le(prev, cur) ==> ClampDelta(cur, prev) == Sub(cur, prev)
  {
  }

  /** Adding one day's delta to the running sum keeps it at least (or, exactly, equal to) the growth. */
  lemma GrowthStep(base: Metrics, before: Metrics, cur: Metrics, sum: Metrics, d: Metrics, exact: bool)
    requires Le(Sub(before, base), sum) && (exact ==> sum == Sub(before, base))
    requires Le(Sub(cur, before), d) && (exact ==> d == Sub(cur, before))
    ensures Le(Sub(cur, base), Add(sum, d)) && (exact ==> Add(sum, d) == Sub(cur, base))
  {
  }

  lemma {:induction false} TelescopeUpTo(byDay: map<Day, Snapshot>, keys: seq<Day>, start: Day, end: Day, n: nat)
    requires IsDayRange(keys, start, end) && n <= |keys|
    requires start - 1 in byDay
    ensures PrevDay(byDay, keys, start - 1, n).Some?
    ensures var last := SnapMetrics(byDay[PrevDay(byDay, keys, start - 1, n).value]);
      var base := SnapMetrics(byDay[start - 1]);
      var sum := Total(MetricsOf(AccrualPoints(byDay, keys, start - 1))[..n]);
      Le(Sub(last, base), sum) && (Monotone(byDay) ==> sum == Sub(last, base))
  {
    var prevDay := start - 1;
    var ms := MetricsOf(AccrualPoints(byDay, keys, prevDay));
    var base := SnapMetrics(byDay[prevDay]);
    if n == 0 {
      assert ms[..0] == [];
    } else {
      TelescopeUpTo(byDay, keys, start, end, n - 1);
      assert ms[..n][..n - 1] == ms[..n - 1];
      var sum := Total(ms[..n - 1]);
      assert Total(ms[..n]) == Add(sum, ms[n - 1]);
      var p := PrevDay(byDay, keys, prevDay, n - 1).value;
      var before := SnapMetrics(byDay[p]);
      if keys[n - 1] in byDay {
        var cur := SnapMetrics(byDay[keys[n - 1]]);
        assert ms[n - 1] == ClampDelta(cur, before);
        ClampDeltaBounds(cur, before);
        PrevDayBefore(byDay, keys, start, end, n - 1);
        if Monotone(byDay) {
          assert Le(before, cur);
        }
        GrowthStep(base, before, cur, sum, ms[n - 1], Monotone(byDay));
      } else {
        assert ms[n - 1] == Zero;
        AddZero(sum);
      }
    }
  }

  /**
   * Telescoping: when the day before the window has a snapshot, the window's
   * deltas add up to at least the growth from that snapshot to the last one
   * in the window (clamping can only add), and to exactly that growth when
   * the counters never decrease.
   */
  lemma Telescoping(byDay: map<Day, Snapshot>, keys: seq<Day>, start: Day, end: Day)
    requires IsDayRange(keys, start, end)
    requires start - 1 in byDay
    ensures Prev(byDay, keys, start - 1, |keys|).Some?
    ensures var last := SnapMetrics(Prev(byDay, keys, start - 1, |keys|).value);
      var growth := Sub(last, SnapMetrics(byDay[start - 1]));
      var sum := Total(MetricsOf(AccrualPoints(byDay, keys, start - 1)));
      Le(growth, sum) && (Monotone(byDay) ==> sum == growth)
  {
    TelescopeUpTo(byDay, keys, start, end, |keys|);
    var ms := MetricsOf(AccrualPoints(byDay, keys, start - 1));
    assert ms[..|keys|] == ms;
  }

  /**
   * `collect` for one platform: the per-user day maps, then one accrual
   * series per requested user id (ids without rows get a zero series).
   */
  method Collect(rows: seq<Snapshot>, ids: seq<string>, keys: seq<Day>, prevDay: Day)
    returns (byUser: map<string, seq<Point>>)
    ensures byUser.Keys == Elems(ids)
    ensures forall u, m :: u in byUser && (forall d :: Get(m, d) == LastSnap(rows, u, d)) ==>
      byUser[u] == AccrualPoints(m, keys, prevDay)
  {
    byUser := map[];
    if |ids| == 0 {
      return;
    }
    var per := LastByDay(rows);
    for t := 0 to |ids|
      invariant byUser.Keys == Elems(ids[..t])
      invariant forall u :: u in byUser ==> byUser[u] == AccrualPoints(Lookup(per, u), keys, prevDay)
    {
      assert ids[..t + 1] == ids[..t] + [ids[t]];
      var out := AccrualSeries(Lookup(per, ids[t]), keys, prevDay);
      byUser := byUser[ids[t] := out];
    }
    assert ids[..|ids|] == ids;
    forall u, m | u in byUser && (forall d :: Get(m, d) == LastSnap(rows, u, d))
      ensures byUser[u] == AccrualPoints(m, keys, prevDay)
    {
      SameLookups(m, Lookup(per, u));
    }
  }

  /** Two day maps with the same lookups are the same map. */
  lemma SameLookups(m1: map<Day, Snapshot>, m2: map<Day, Snapshot>)
    requires forall d :: Get(m1, d) == Get(m2, d)
    ensures m1 == m2
  {
    forall d ensures d in m1 <==> d in m2 {
      assert Get(m1, d) == Get(m2, d);
    }
    forall d | d in m1 ensures m1[d] == m2[d] {
      assert Get(m1, d) == Get(m2, d);
    }
  }

  // ---------------------------------------------------------------------
  // Cutoff mask: points dated before the effective cutoff become zero but
  // stay on the axis.
  // ---------------------------------------------------------------------

  /** The later of the configured cutoff and the window start. */
  function EffectiveCutoff(cutoff: Day, start: Day): (c: Day)
    ensures c >= cutoff && c >= start
    ensures c == cutoff || c == start
  {
    if cutoff > start then cutoff else start
  }

  /** `mask`: every point dated before `c` has all five counters zeroed. */
  function Mask(ps: seq<Point>, c: Day): (r: seq<Point>)
    ensures |r| == |ps| && forall i :: 0 <= i < |ps| ==> r[i].date == ps[i].date
  {
    seq(|ps|, i requires 0 <= i < |ps| => if ps[i].date < c then Point(ps[i].date, Zero) else ps[i])
  }

  /** Masking twice with the same cutoff is masking once. */
  lemma MaskIdempotent(ps: seq<Point>, c: Day)
    ensures Mask(Mask(ps, c), c) == Mask(ps, c)
  {
  }

  /** Masking with two cutoffs in turn is masking with the later one. */
  lemma MaskCompose(ps: seq<Point>, a: Day, b: Day)
    ensures Mask(Mask(ps, a), b) == Mask(ps, if a < b then b else a)
  {
  }

  /** The dates of a series. */
  function Dates(ps: seq<Point>): (ds: seq<Day>)
    ensures |ds| == |ps| && forall i :: 0 <= i < |ps| ==> ds[i] == ps[i].date
  {
    seq(|ps|, i requires 0 <= i < |ps| => ps[i].date)
  }

  /**
   * On a series over the day range from `start`, the mask zeroes exactly the
   * days before `c`: a prefix of zero points followed by the untouched rest.
   */
  lemma MaskPrefix(ps: seq<Point>, start: Day, c: Day)
    requires forall i :: 0 <= i < |ps| ==> ps[i].date == start + i
    requires start <= c
    ensures var n := if c - start < |ps| then c - start else |ps|;
      Mask(ps, c) == ZeroPoints(Dates(ps[..n])) + ps[n..]
  {
    var n := if c - start < |ps| then c - start else |ps|;
    var r := ZeroPoints(Dates(ps[..n])) + ps[n..];
    assert |r| == |ps|;
    forall i | 0 <= i < |ps| ensures Mask(ps, c)[i] == r[i] {
      if i < n {
        assert r[i] == Point(ps[i].date, Zero);
      } else {
        assert r[i] == ps[n..][i - n];
      }
    }
  }

  lemma {:induction false} TotalOfZeros(ms: seq<Metrics>)
    requires forall i :: 0 <= i < |ms| ==> ms[i] == Zero
    ensures Total(ms) == Zero
  {
    if ms != [] {
      var init := ms[..|ms| - 1];
      TotalOfZeros(init);
      assert Total(ms) == Add(Total(init), ms[|ms| - 1]);
      assert ms[|ms| - 1] == Zero;
      AddZero(Zero);
    }
  }

  lemma ZeroPointsTotal(keys: seq<Day>)
    ensures Total(MetricsOf(ZeroPoints(keys))) == Zero
  {
    TotalOfZeros(MetricsOf(ZeroPoints(keys)));
  }

  /**
   * After masking, a daily series totals exactly its points from the
   * cutoff on.
   */
  lemma MaskTotal(ps: seq<Point>, start: Day, c: Day)
    requires forall i :: 0 <= i < |ps| ==> ps[i].date == start + i
    requires start <= c
    ensures var n := if c - start < |ps| then c - start else |ps|;
      Total(MetricsOf(Mask(ps, c))) == Total(MetricsOf(ps[n..]))
  {
    var n := if c - start < |ps| then c - start else |ps|;
    MaskPrefix(ps, start, c);
    var z := ZeroPoints(Dates(ps[..n]));
    assert MetricsOf(z + ps[n..]) == MetricsOf(z) + MetricsOf(ps[n..]);
    TotalAppend(MetricsOf(z), MetricsOf(ps[n..]));
    ZeroPointsTotal(Dates(ps[..n]));
    AddZero(Total(MetricsOf(ps[n..])));
  }

  /**
   * Inside the requested window nothing is masked unless the configured
   * cutoff is after the start; then exactly the days before it are zeroed.
   */
  lemma MaskWindow(ps: seq<Point>, keys: seq<Day>, start: Day, end: Day, cutoff: Day)
    requires IsDayRange(keys, start, end)
    requires |ps| == |keys| && forall i :: 0 <= i < |ps| ==> ps[i].date == keys[i]
    ensures cutoff <= start ==> Mask(ps, EffectiveCutoff(cutoff, start)) == ps
    ensures forall i :: 0 <= i < |ps| ==>
      Mask(ps, EffectiveCutoff(cutoff, start))[i] == if keys[i] < cutoff then Point(keys[i], Zero) else ps[i]
  {
  }

  /** The mask applied to the series of every account. */
  method MaskAll(byAccount: map<string, seq<Point>>, c: Day) returns (masked: map<string, seq<Point>>)
    ensures masked.Keys == byAccount.Keys
    ensures forall k :: k in masked ==> masked[k] == Mask(byAccount[k], c)
  {
    masked := byAccount;
    var rest := byAccount.Keys;
    while rest != {}
      invariant rest <= byAccount.Keys && masked.Keys == byAccount.Keys
      invariant forall k :: k in masked ==> masked[k] == if k in rest then byAccount[k] else Mask(byAccount[k], c)
      decreases |rest|
    {
      var k :| k in rest;
      masked := masked[k := Mask(masked[k], c)];
      rest := rest - {k};
    }
  }
}
