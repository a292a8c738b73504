/**
 * The per-day post count of src/app/api/debug/posts-count/route.ts: the
 * employees' TikTok and Instagram handles, the number of distinct posts of
 * those handles on a day and the counters summed over every row of that
 * day, repeated snapshots included.
 */
module PostsCount {
  import opened Common
  import opened Days
  import opened Handles
  import opened Posts
  import opened Grouping

  /** At most this many handles are listed. */
  const Listed := 20

  /** The five TikTok counters of a row, each read as 0 when missing. */
  function AllMetrics(r: PostRow): Metrics
  {
    RowMetrics(r, true)
  }

  /** The ids of the rows. */
  function IdsOf(rows: seq<PostRow>): set<string>
  {
    if rows == [] then {} else IdsOf(rows[..|rows| - 1]) + {rows[|rows| - 1].id}
  }

  /** An id is counted exactly when some row carries it. */
  lemma {:induction false} IdsOfMembers(rows: seq<PostRow>, id: string)
    ensures id in IdsOf(rows) <==> exists i :: 0 <= i < |rows| && rows[i].id == id
  {
    if rows != [] {
      var init := rows[..|rows| - 1];
      IdsOfMembers(init, id);
      if exists i :: 0 <= i < |init| && init[i].id == id {
        var i :| 0 <= i < |init| && init[i].id == id;
        assert rows[i] == init[i];
      }
      if exists i :: 0 <= i < |rows| && rows[i].id == id {
        var i :| 0 <= i < |rows| && rows[i].id == id;
        if i < |init| {
          assert init[i] == rows[i];
        }
      }
    }
  }

  /**
   * Totals are not de-duplicated: a further snapshot of a post already
   * counted leaves the post count as it is but adds its counters.
   */
  lemma RepeatAddsToTotals(rows: seq<PostRow>, r: PostRow, val: PostRow -> Metrics)
    requires exists i :: 0 <= i < |rows| && rows[i].id == r.id
    ensures IdsOf(rows + [r]) == IdsOf(rows)
    ensures TotalOf(rows + [r], val) == Add(TotalOf(rows, val), val(r))
  {
    assert (rows + [r])[..|rows|] == rows;
    IdsOfMembers(rows, r.id);
  }

  /** A platform's part of the response: distinct posts and summed counters. */
  datatype Counted = Counted(posts: int, totals: Metrics)

  /**
   * The loop over the rows: the ids go into a set and every row's counters into the totals.
   */
  method CountRows(rows: seq<PostRow>, val: PostRow -> Metrics) returns (c: Counted)
    ensures c.posts == |IdsOf(rows)|
    ensures c.totals == TotalOf(rows, val)
  {
    var ids: set<string> := {};
    var totals := Zero;
    for j := 0 to |rows|
      invariant ids == IdsOf(rows[..j])
      invariant totals == TotalOf(rows[..j], val)
    {
      assert rows[..j + 1][..j] == rows[..j];
      ids := ids + {rows[j].id};
      totals := Add(totals, val(rows[j]));
    }
    assert rows[..|rows|] == rows;
    c := Counted(|ids|, totals);
  }

  /** The TikTok rows the route reads: a known handle's rows whose `post_date` is the day. */
  function TikTokRows(rows: seq<PostRow>, known: set<string>, date: Day): seq<PostRow>
  {
    Filter(rows, (r: PostRow) => r.username in known && r.postDate == Some(date))
  }

  /**
   * The Instagram rows the route reads: a known handle's rows taken on the
   * day, followed by its rows without `taken_at` posted that day.
   */
  function InstagramRows(rows: seq<PostRow>, known: set<string>, date: Day): seq<PostRow>
  {
    var mine := Filter(rows, (r: PostRow) => r.username in known);
    TakenOn(mine, date) + LegacyOn(mine, date)
  }

  /** An Instagram row is read exactly when its handle is known and its day is the day. */
  lemma InstagramRowsMembers(rows: seq<PostRow>, known: set<string>, date: Day, r: PostRow)
    ensures r in InstagramRows(rows, known, date) <==> r in rows && r.username in known && DayKey(r) == Some(date)
  {
    var mine := Filter(rows, (x: PostRow) => x.username in known);
    TakenOrLegacy(mine, date, r);
    if r in rows && r.username in known {
      var i :| 0 <= i < |rows| && rows[i] == r;
    }
  }

  /** The listed handles: distinct employee handles, as many as the limit allows. */
  ghost predicate ListsHandles(hs: seq<string>, known: set<string>)
  {
    Distinct(hs) && (forall h :: h in hs ==> h in known) && |hs| == Min(Listed, |known|)
  }

  /** The first handles of the set in its insertion order, as many as the limit allows. */
  method ListHandles(handles: seq<string>) returns (hs: seq<string>)
    requires Distinct(handles)
    ensures |hs| == Min(Listed, |handles|) && hs == handles[..|hs|]
    ensures hs == Take(handles, Listed)
    ensures ListsHandles(hs, Elems(handles))
  {
    DistinctCard(handles);
    TakeDistinct(handles, Listed);
    hs := Take(handles, Listed);
  }

  /**
   * The route for day `date`: `emps` are the `karyawan` users, `ttMap` and
   * `igMap` the raw handles of the two mapping tables, `tiktokRows` and
   * `instagramRows` the rows of the two daily post tables.
   */
  method PostsCount(date: Day, emps: seq<Employee>, ttMap: seq<string>, igMap: seq<string>,
                    tiktokRows: seq<PostRow>, instagramRows: seq<PostRow>)
    returns (ttHandles: seq<string>, igHandles: seq<string>, tiktok: Counted, instagram: Counted)
    ensures ttHandles == Take(KnownOrder(TikTokHandles(emps), ttMap), Listed)
    ensures igHandles == Take(KnownOrder(InstagramHandles(emps), igMap), Listed)
    ensures ListsHandles(ttHandles, KnownSet(TikTokHandles(emps), ttMap))
    ensures ListsHandles(igHandles, KnownSet(InstagramHandles(emps), igMap))
    ensures var rows := TikTokRows(tiktokRows, KnownSet(TikTokHandles(emps), ttMap), date);
      tiktok == Counted(|IdsOf(rows)|, TotalOf(rows, AllMetrics))
    ensures var rows := InstagramRows(instagramRows, KnownSet(InstagramHandles(emps), igMap), date);
      instagram == Counted(|IdsOf(rows)|, TotalOf(rows, BasicMetrics))
  {
    var ttSet := EmployeeHandles(TikTokHandles(emps), ttMap);
    var igSet := EmployeeHandles(InstagramHandles(emps), igMap);
    tiktok := CountRows(TikTokRows(tiktokRows, Elems(ttSet), date), AllMetrics);
    instagram := CountRows(InstagramRows(instagramRows, Elems(igSet), date), BasicMetrics);
    ttHandles := ListHandles(ttSet);
    igHandles := ListHandles(igSet);

  }
}
