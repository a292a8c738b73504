/**
 * Calendar days. A day is an integer day number (days since 1970-01-01,
 * UTC); the routes compare `YYYY-MM-DD` strings, whose order is the order of
 * the day numbers.
 */
module Days {

  type Day = int

  /** 2026-01-02, the default accrual cutoff of the analytics route and the dashboard. */
  const DefaultCutoff: Day := 20455

  /** 2026-01-03, the first day of real-time data in the weekly view. */
  const RealtimeStart: Day := 20456

  /** Number of days from `start` to `end`, both included. */
  function Span(start: Day, end: Day): nat
  {
    if start <= end then end - start + 1 else 0
  }

  /** `keys` lists every day from `start` to `end` in order, one day apart. */
  ghost predicate IsDayRange(keys: seq<Day>, start: Day, end: Day)
  {
    |keys| == Span(start, end) && forall i :: 0 <= i < |keys| ==> keys[i] == start + i
  }

  /**
   * The day-key loop: starting at `start`, push the day and advance it by one
   * day while it is not after `end`.
   */
  method DayKeys(start: Day, end: Day) returns (keys: seq<Day>)
    ensures |keys| == Span(start, end)
    ensures forall i :: 0 <= i < |keys| ==> keys[i] == start + i
  {
    keys := [];
    var d := start;
    while d <= end
      invariant start <= d
      invariant d <= end + 1 || d == start
      invariant |keys| == d - start
      invariant forall i :: 0 <= i < |keys| ==> keys[i] == start + i
      decreases end - d
    {
      keys := keys + [d];
      d := d + 1;
    }
  }

  /** A day is a key exactly when it lies in the window; keys ascend by one day. */
  lemma DayRangeMembers(keys: seq<Day>, start: Day, end: Day, d: Day)
    requires IsDayRange(keys, start, end)
    ensures d in keys <==> start <= d <= end
    ensures forall i :: 0 < i < |keys| ==> keys[i] == keys[i - 1] + 1
  {
    if start <= d <= end {
      assert keys[d - start] == d;
    }
  }

  /** A day range has no repeated day. */
  lemma DayRangeDistinct(keys: seq<Day>, start: Day, end: Day)
    requires IsDayRange(keys, start, end)
    ensures forall i, j :: 0 <= i < j < |keys| ==> keys[i] < keys[j]
  {
  }
}
