/**
 * The posts-per-day series of src/app/api/posts-series/route.ts: every day
 * of the window starts at zero, the TikTok and Instagram rows are grouped by
 * day into sets of post ids, each day's counts are the sizes of those sets,
 * and the series is listed by date with its grand total.
 */
module PostsSeries {
  import opened Common
  import opened Days
  import opened Posts

  /** A `postsByDate` entry. */
  datatype Counts = Counts(tiktok: int, instagram: int, total: int)

  const NoPosts := Counts(0, 0, 0)

  /** One element of the response's `series`. */
  datatype DayPosts = DayPosts(date: Day, posts: int, postsTikTok: int, postsInstagram: int)

  /**
   * The campaign's hashtag filter: `tags` is `required_hashtags` (`None`
   * when null) and `hasTag` stands for `hasRequiredHashtag`, whose body is
   * not part of this model.
   */
  datatype Gate = Gate(tags: Option<seq<string>>, hasTag: (string, seq<string>) -> bool)

  /** A row is kept unless the campaign requires hashtags that its text lacks. */
  predicate Passes(g: Gate, r: PostRow)
  {
    g.tags.None? || |g.tags.value| == 0 || g.hasTag(r.text, g.tags.value)
  }

  /** A row is counted on day `d`: it passes the filter and its day is `d`. */
  predicate CountedOn(g: Gate, r: PostRow, d: Day)
  {
    Passes(g, r) && DayKey(r) == Some(d)
  }

  // ---------------------------------------------------------------------
  // Distinct ids per day
  // ---------------------------------------------------------------------

  /** The ids of the rows counted on `d`. */
  function IdsOn(g: Gate, rows: seq<PostRow>, d: Day): set<string>
  {
    if rows == [] then {}
    else
      var r := rows[|rows| - 1];
      IdsOn(g, rows[..|rows| - 1], d) + (if CountedOn(g, r, d) then {r.id} else {})
  }

  /** An id is in a day's set exactly when some row with that id is counted on that day. */
  lemma {:induction false} IdsOnMembers(g: Gate, rows: seq<PostRow>, d: Day, id: string)
    ensures id in IdsOn(g, rows, d) <==> exists i :: 0 <= i < |rows| && CountedOn(g, rows[i], d) && rows[i].id == id
  {
    if rows != [] {
      var init := rows[..|rows| - 1];
      IdsOnMembers(g, init, d, id);
      if id in IdsOn(g, init, d) {
        var i :| 0 <= i < |init| && CountedOn(g, init[i], d) && init[i].id == id;
        assert rows[i] == init[i];
      }
      if exists i :: 0 <= i < |rows| && CountedOn(g, rows[i], d) && rows[i].id == id {
        var i :| 0 <= i < |rows| && CountedOn(g, rows[i], d) && rows[i].id == id;
        if i < |init| {
          assert init[i] == rows[i];
        }
      }
    }
  }

  /** A further snapshot of a post already counted on a day leaves that day's count as it is. */
  lemma RepeatCountedOnce(g: Gate, rows: seq<PostRow>, r: PostRow, d: Day)
    requires exists i :: 0 <= i < |rows| && CountedOn(g, rows[i], d) && rows[i].id == r.id
    ensures |IdsOn(g, rows + [r], d)| == |IdsOn(g, rows, d)|
  {
    assert (rows + [r])[..|rows|] == rows;
    IdsOnMembers(g, rows, d, r.id);
    assert IdsOn(g, rows + [r], d) == IdsOn(g, rows, d);
  }

  /** With no required hashtags no row is excluded. */
  lemma {:induction false} NoTagsKeepAll(g: Gate, rows: seq<PostRow>, d: Day)
    requires g.tags.None? || g.tags.value == []
    ensures IdsOn(g, rows, d) == set i | 0 <= i < |rows| && DayKey(rows[i]) == Some(d) :: rows[i].id
  {
    forall id | true
      ensures id in IdsOn(g, rows, d) <==> exists i :: 0 <= i < |rows| && DayKey(rows[i]) == Some(d) && rows[i].id == id
    {
      IdsOnMembers(g, rows, d, id);
    }
  }

  /** The days on which some row is counted. */
  function RowDays(g: Gate, rows: seq<PostRow>): set<Day>
  {
    if rows == [] then {}
    else
      var r := rows[|rows| - 1];
      RowDays(g, rows[..|rows| - 1]) + (if Passes(g, r) && DayKey(r).Some? then {DayKey(r).value} else {})
  }

  /** A day has a set of ids exactly when that set is non-empty. */
  lemma {:induction false} RowDaysMembers(g: Gate, rows: seq<PostRow>, d: Day)
    ensures d in RowDays(g, rows) <==> IdsOn(g, rows, d) != {}
  {
    if rows != [] {
      var r := rows[|rows| - 1];
      RowDaysMembers(g, rows[..|rows| - 1], d);
      if CountedOn(g, r, d) {
        assert r.id in IdsOn(g, rows, d);
      }
    }
  }

  /**
   * `videosByDate` / `postIdsByDate`: for every row that passes the filter
   * and has a day, add its id to that day's set; a day's set is created
   * the first time the day is seen.
   */
  method IdsByDate(g: Gate, rows: seq<PostRow>) returns (sets: map<Day, set<string>>, order: seq<Day>)
    ensures Distinct(order) && Elems(order) == sets.Keys
    ensures sets.Keys == RowDays(g, rows)
    ensures forall d :: d in sets ==> sets[d] == IdsOn(g, rows, d)
  {
    sets := map[];
    order := [];
    for j := 0 to |rows|
      invariant Distinct(order) && Elems(order) == sets.Keys
      invariant sets.Keys == RowDays(g, rows[..j])
      invariant forall d :: d in sets ==> sets[d] == IdsOn(g, rows[..j], d)
    {
      var r := rows[j];
      assert rows[..j + 1][..j] == rows[..j];
      assert rows[..j + 1][j] == r;
      if Passes(g, r) && DayKey(r).Some? {
        var d := DayKey(r).value;
        if d !in sets {
          sets := sets[d := {}];
          order := order + [d];
          RowDaysMembers(g, rows[..j], d);
        }
        sets := sets[d := sets[d] + {r.id}];
      }
    }
    assert rows[..|rows|] == rows;
  }

  // ---------------------------------------------------------------------
  // The per-day entries
  // ---------------------------------------------------------------------

  /**
   * Initialises `postsByDate`: starting at `start`, every day up to `end`
   * gets a zero entry.
   */
  method InitDays(start: Day, end: Day) returns (m: map<Day, Counts>, order: seq<Day>)
    ensures Distinct(order) && Elems(order) == m.Keys
    ensures IsDayRange(order, start, end)
    ensures forall d :: d in m <==> start <= d <= end
    ensures forall d :: d in m ==> m[d] == NoPosts
  {
    m := map[];
    order := [];
    var d := start;
    while d <= end
      invariant start <= d
      invariant d <= end + 1 || d == start
      invariant |order| == d - start
      invariant forall i :: 0 <= i < |order| ==> order[i] == start + i
      invariant forall e :: e in m <==> start <= e < d
      invariant forall e :: e in m ==> m[e] == NoPosts
      invariant Elems(order) == m.Keys
      decreases end - d
    {
      m := m[d := NoPosts];
      order := order + [d];
      d := d + 1;
    }
  }

  /** The two platforms whose counts fill an entry. */
  datatype Channel = TikTok | Instagram

  /**
   * A day's entry with the platform's own count overwritten by `n`, the
   * other platform's count kept, and `n` added to its total.
   */
  function Record(c: Counts, ch: Channel, n: int): (r: Counts)
    ensures r.total == c.total + n
    ensures ch == TikTok ==> r.tiktok == n && r.instagram == c.instagram
    ensures ch == Instagram ==> r.instagram == n && r.tiktok == c.tiktok
  {
    match ch
    case TikTok => Counts(n, c.instagram, c.total + n)
    case Instagram => Counts(c.tiktok, n, c.total + n)
  }

  /** The entry of day `d`, or a zero entry when the day has none. */
  function Entry(m: map<Day, Counts>, d: Day): Counts
  {
    if d in m then m[d] else NoPosts
  }

  /** `m'` is `m` with the days `done` of `sets` recorded for `ch`. */
  ghost predicate RecordedOn(m': map<Day, Counts>, m: map<Day, Counts>, sets: map<Day, set<string>>, ch: Channel, done: set<Day>)
  {
    done <= sets.Keys &&
    m'.Keys == m.Keys + done &&
    forall d :: d in m' ==> m'[d] == if d in done then Record(Entry(m, d), ch, |sets[d]|) else m[d]
  }

  /** `m'` is `m` with every day of `sets` recorded for `ch`. */
  ghost predicate Recorded(m': map<Day, Counts>, m: map<Day, Counts>, sets: map<Day, set<string>>, ch: Channel)
  {
    RecordedOn(m', m, sets, ch, sets.Keys)
  }

  /** Recording one more day: its entry is the one `m` had, or a fresh zero entry. */
  lemma RecordStep(m': map<Day, Counts>, m: map<Day, Counts>, sets: map<Day, set<string>>, ch: Channel, done: set<Day>, d: Day)
    requires RecordedOn(m', m, sets, ch, done)
    requires d in sets && d !in done
    ensures Entry(m', d) == Entry(m, d)
    ensures RecordedOn(m'[d := Record(Entry(m', d), ch, |sets[d]|)], m, sets, ch, done + {d})
  {
  }

  lemma ElemsSnoc<T>(s: seq<T>, j: nat)
    requires j < |s|
    ensures Elems(s[..j + 1]) == Elems(s[..j]) + {s[j]}
  {
    assert s[..j + 1] == s[..j] + [s[j]];
  }

  /** Without repeats, the next day of `days` is not among those before it. */
  lemma NextDay(days: seq<Day>, j: nat)
    requires j < |days| && Distinct(days)
    ensures days[j] !in Elems(days[..j])
    ensures Elems(days[..j + 1]) == Elems(days[..j]) + {days[j]}
  {
    ElemsSnoc(days, j);
  }

  /** Writing day `d` appends it to the insertion order when it is new. */
  lemma OrderStep<V>(m: map<Day, V>, order: seq<Day>, d: Day, e: V)
    requires Distinct(order) && Elems(order) == m.Keys
    ensures var order' := if d in m then order else order + [d];
      Distinct(order') && Elems(order') == m[d := e].Keys
  {
    if d !in m {
      assert Elems(order + [d]) == Elems(order) + {d};
      DistinctSnoc(order, d);
    }
  }

  /**
   * The loop over the id sets by day: record the size of each
   * day's set in that day's entry, creating the entry when the day lies
   * outside the window.
   */
  method AddCounts(m: map<Day, Counts>, order: seq<Day>, sets: map<Day, set<string>>, days: seq<Day>, ch: Channel)
    returns (m': map<Day, Counts>, order': seq<Day>)
    requires Distinct(order) && Elems(order) == m.Keys
    requires Distinct(days) && Elems(days) == sets.Keys
    ensures Distinct(order') && Elems(order') == m'.Keys
    ensures Recorded(m', m, sets, ch)
  {
    m', order' := m, order;
    for j := 0 to |days|
      invariant Distinct(order') && Elems(order') == m'.Keys
      invariant RecordedOn(m', m, sets, ch, Elems(days[..j]))
    {
      var d := days[j];
      NextDay(days, j);
      RecordStep(m', m, sets, ch, Elems(days[..j]), d);
      OrderStep(m', order', d, Record(Entry(m', d), ch, |sets[d]|));
      var entry := if d in m' then m'[d] else NoPosts;
      if d !in m' {
        order' := order' + [d];
      }
      m' := m'[d := Record(entry, ch, |sets[d]|)];
    }
    assert days[..|days|] == days;
  }

  // ---------------------------------------------------------------------
  // The response
  // ---------------------------------------------------------------------

  /** TikTok is counted for platform 'all' or 'tiktok'. */
  predicate TikTokOn(platform: string)
  {
    platform == "all" || platform == "tiktok"
  }

  /** Instagram is counted for platform 'all' or 'instagram'. */
  predicate InstagramOn(platform: string)
  {
    platform == "all" || platform == "instagram"
  }

  /** The series element the route promises for day `d`, given which platforms are counted. */
  function Expected(g: Gate, ttOn: bool, igOn: bool, tt: seq<PostRow>, ig: seq<PostRow>, d: Day): DayPosts
  {
    var t := if ttOn then |IdsOn(g, tt, d)| else 0;
    var i := if igOn then |IdsOn(g, ig, d)| else 0;
    DayPosts(d, t + i, t, i)
  }

  /** The days the series lists: the window and every day with a counted post. */
  ghost predicate Listed(g: Gate, ttOn: bool, igOn: bool, tt: seq<PostRow>, ig: seq<PostRow>, start: Day, end: Day, d: Day)
  {
    start <= d <= end ||
    (ttOn && IdsOn(g, tt, d) != {}) ||
    (igOn && IdsOn(g, ig, d) != {})
  }

  function DateOf(e: DayPosts): int
  {
    e.date
  }

  /** The entries of the map, in insertion order, as series elements. */
  function Entries(m: map<Day, Counts>, order: seq<Day>): (es: seq<DayPosts>)
    requires Elems(order) <= m.Keys
    ensures |es| == |order|
    ensures forall i :: 0 <= i < |order| ==>
              es[i] == DayPosts(order[i], m[order[i]].total, m[order[i]].tiktok, m[order[i]].instagram)
  {
    seq(|order|, i requires 0 <= i < |order| && order[i] in m =>
      DayPosts(order[i], m[order[i]].total, m[order[i]].tiktok, m[order[i]].instagram))
  }

  /** The posts of the series summed. */
  function SumPosts(series: seq<DayPosts>): int
  {
    if series == [] then 0 else SumPosts(series[..|series| - 1]) + series[|series| - 1].posts
  }

  function SumTikTok(series: seq<DayPosts>): int
  {
    if series == [] then 0 else SumTikTok(series[..|series| - 1]) + series[|series| - 1].postsTikTok
  }

  function SumInstagram(series: seq<DayPosts>): int
  {
    if series == [] then 0 else SumInstagram(series[..|series| - 1]) + series[|series| - 1].postsInstagram
  }

  /** When every day's posts are its two platforms' posts, so is the total. */
  lemma {:induction false} SumSplits(series: seq<DayPosts>)
    requires forall i :: 0 <= i < |series| ==> series[i].posts == series[i].postsTikTok + series[i].postsInstagram
    ensures SumPosts(series) == SumTikTok(series) + SumInstagram(series)
  {
    if series != [] {
      SumSplits(series[..|series| - 1]);
    }
  }

  /** A series element made from a `postsByDate` entry. */
  function ToDayPosts(d: Day, c: Counts): DayPosts
  {
    DayPosts(d, c.total, c.tiktok, c.instagram)
  }

  /** `series` lists the entries of `m` by strictly ascending date. */
  ghost predicate Describes(series: seq<DayPosts>, m: map<Day, Counts>)
  {
    (forall i, j :: 0 <= i < j < |series| ==> series[i].date < series[j].date) &&
    (forall d :: (exists i :: 0 <= i < |series| && series[i].date == d) <==> d in m) &&
    (forall i :: 0 <= i < |series| ==> series[i].date in m && series[i] == ToDayPosts(series[i].date, m[series[i].date]))
  }

  /** Sorting the entries by date lists each day of the map once, in ascending order. */
  lemma SortedEntries(m: map<Day, Counts>, order: seq<Day>)
    requires Distinct(order) && Elems(order) == m.Keys
    ensures Describes(SortBy(Entries(m, order), DateOf), m)
  {
    var entries := Entries(m, order);
    var series := SortBy(entries, DateOf);
    assert KeysDistinct(entries, DateOf);
    SortByKeysDistinct(entries, DateOf);
    forall i | 0 <= i < |series|
      ensures series[i].date in m && series[i] == ToDayPosts(series[i].date, m[series[i].date])
    {
      SortByMembers(entries, DateOf, series[i]);
    }
    forall d | d in m ensures exists i :: 0 <= i < |series| && series[i].date == d {
      var k :| 0 <= k < |order| && order[k] == d;
      SortByMembers(entries, DateOf, entries[k]);
    }
  }

  /** The final entry of a day, from the zero start and the two recording passes. */
  lemma FinalEntry(g: Gate, ttOn: bool, igOn: bool, tt: seq<PostRow>, ig: seq<PostRow>, start: Day, end: Day,
                   m0: map<Day, Counts>, m1: map<Day, Counts>, m2: map<Day, Counts>,
                   ttSets: map<Day, set<string>>, igSets: map<Day, set<string>>, d: Day)
    requires d in m0 <==> start <= d <= end
    requires d in m0 ==> m0[d] == NoPosts
    requires ttSets.Keys == (if ttOn then RowDays(g, tt) else {})
    requires d in ttSets ==> ttSets[d] == IdsOn(g, tt, d)
    requires igSets.Keys == (if igOn then RowDays(g, ig) else {})
    requires d in igSets ==> igSets[d] == IdsOn(g, ig, d)
    requires Recorded(m1, m0, ttSets, TikTok) && Recorded(m2, m1, igSets, Instagram)
    ensures d in m2 <==> Listed(g, ttOn, igOn, tt, ig, start, end, d)
    ensures d in m2 ==> ToDayPosts(d, m2[d]) == Expected(g, ttOn, igOn, tt, ig, d)
  {
    RowDaysMembers(g, tt, d);
    RowDaysMembers(g, ig, d);
  }

  lemma FinalEntries(g: Gate, ttOn: bool, igOn: bool, tt: seq<PostRow>, ig: seq<PostRow>, start: Day, end: Day,
                     m0: map<Day, Counts>, m1: map<Day, Counts>, m2: map<Day, Counts>,
                     ttSets: map<Day, set<string>>, igSets: map<Day, set<string>>)
    requires forall e :: e in m0 <==> start <= e <= end
    requires forall e :: e in m0 ==> m0[e] == NoPosts
    requires ttSets.Keys == (if ttOn then RowDays(g, tt) else {})
    requires forall e :: e in ttSets ==> ttSets[e] == IdsOn(g, tt, e)
    requires igSets.Keys == (if igOn then RowDays(g, ig) else {})
    requires forall e :: e in igSets ==> igSets[e] == IdsOn(g, ig, e)
    requires Recorded(m1, m0, ttSets, TikTok) && Recorded(m2, m1, igSets, Instagram)
    ensures forall d :: d in m2 <==> Listed(g, ttOn, igOn, tt, ig, start, end, d)
    ensures forall d :: d in m2 ==> ToDayPosts(d, m2[d]) == Expected(g, ttOn, igOn, tt, ig, d)
  {
    forall d ensures (d in m2 <==> Listed(g, ttOn, igOn, tt, ig, start, end, d)) &&
                     (d in m2 ==> ToDayPosts(d, m2[d]) == Expected(g, ttOn, igOn, tt, ig, d)) {
      FinalEntry(g, ttOn, igOn, tt, ig, start, end, m0, m1, m2, ttSets, igSets, d);
    }
  }

  /** The sorted entries meet the route's promises once every entry does. */
  lemma SeriesMeets(g: Gate, ttOn: bool, igOn: bool, tt: seq<PostRow>, ig: seq<PostRow>, start: Day, end: Day,
                    m: map<Day, Counts>, series: seq<DayPosts>)
    requires Describes(series, m)
    requires forall d :: d in m <==> Listed(g, ttOn, igOn, tt, ig, start, end, d)
    requires forall d :: d in m ==> ToDayPosts(d, m[d]) == Expected(g, ttOn, igOn, tt, ig, d)
    ensures forall i, j :: 0 <= i < j < |series| ==> series[i].date < series[j].date
    ensures forall d :: (exists i :: 0 <= i < |series| && series[i].date == d) <==> Listed(g, ttOn, igOn, tt, ig, start, end, d)
    ensures forall i :: 0 <= i < |series| ==> series[i] == Expected(g, ttOn, igOn, tt, ig, series[i].date)
  {
  }

  /**
   * One platform's pass: when the platform is counted, group its rows into
   * id sets by day and record each day's count; otherwise leave the
   * entries as they are.
   */
  method CountPlatform(on: bool, g: Gate, rows: seq<PostRow>, m: map<Day, Counts>, order: seq<Day>, ch: Channel)
    returns (m': map<Day, Counts>, order': seq<Day>, sets: map<Day, set<string>>)
    requires Distinct(order) && Elems(order) == m.Keys
    ensures Distinct(order') && Elems(order') == m'.Keys
    ensures sets.Keys == (if on then RowDays(g, rows) else {})
    ensures forall d :: d in sets ==> sets[d] == IdsOn(g, rows, d)
    ensures Recorded(m', m, sets, ch)
  {
    m', order', sets := m, order, map[];
    if on {
      var days;
      sets, days := IdsByDate(g, rows);
      m', order' := AddCounts(m, order, sets, days, ch);
    }
  }

  /**
   * The route after the employee lookup. `hasEmployees` is false when the
   * campaign (or the `karyawan` role) has no employees; `tt` and `ig` are
   * the rows the queries return; `platform` is the lower-cased parameter.
   */
  method Series(hasEmployees: bool, start: Day, end: Day, platform: string, g: Gate,
                tt: seq<PostRow>, ig: seq<PostRow>) returns (series: seq<DayPosts>, total: int)
    ensures !hasEmployees ==> series == [] && total == 0
    ensures hasEmployees ==>
              (forall i, j :: 0 <= i < j < |series| ==> series[i].date < series[j].date) &&
              (forall d :: (exists i :: 0 <= i < |series| && series[i].date == d) <==> Listed(g, TikTokOn(platform), InstagramOn(platform), tt, ig, start, end, d)) &&
              (forall i :: 0 <= i < |series| ==> series[i] == Expected(g, TikTokOn(platform), InstagramOn(platform), tt, ig, series[i].date))
    ensures total == SumPosts(series)
  {
    if !hasEmployees {
      return [], 0;
    }
    var ttOn, igOn := TikTokOn(platform), InstagramOn(platform);
    var m0, order0 := InitDays(start, end);
    var m1, order1, ttSets := CountPlatform(ttOn, g, tt, m0, order0, TikTok);
    var m2, order2, igSets := CountPlatform(igOn, g, ig, m1, order1, Instagram);
    FinalEntries(g, ttOn, igOn, tt, ig, start, end, m0, m1, m2, ttSets, igSets);
    SortedEntries(m2, order2);
    series := SortBy(Entries(m2, order2), DateOf);
    SeriesMeets(g, ttOn, igOn, tt, ig, start, end, m2, series);
    total := SumPosts(series);
  }
}
