/**
 * The Instagram metrics recompute of
 * src/app/api/admin/ig/recompute-metrics/route.ts: the window of days,
 * the map from user id to that user's Instagram handles, and one current
 * and one history record per mapped user with the sums of that user's
 * post counters inside the window.
 */
module Recompute {
  import opened Common
  import opened Days
  import opened Handles
  import opened Posts
  import opened Grouping

  // ---------------------------------------------------------------------
  // The window
  // ---------------------------------------------------------------------

  /**
   * The requested number of days, 60 when missing or 0, clamped to 1..180,
   * for an integer `days` (`None` when the body has none).
   */
  function WindowDays(input: Option<int>): (days: int)
    ensures 1 <= days <= 180
    ensures input.None? || input.value == 0 ==> days == 60
    ensures input.Some? && 1 <= input.value <= 180 ==> days == input.value
    ensures input.Some? && input.value > 180 ==> days == 180
    ensures input.Some? && input.value < 0 ==> days == 1
  {
    var n := if input.None? || input.value == 0 then 60 else input.value;
    if n > 180 then 180 else if n < 1 then 1 else n
  }

  /** Clamping a clamped count again leaves it as it is. */
  lemma WindowDaysStable(input: Option<int>)
    ensures WindowDays(Some(WindowDays(input))) == WindowDays(input)
  {
  }

  /** The first day of the window, `days - 1` days before today, as a day number. */
  function WindowStart(today: Day, days: int): Day
  {
    today - (days - 1)
  }

  /** The window from its start to today holds exactly `days` days. */
  lemma WindowSpan(today: Day, input: Option<int>)
    ensures Span(WindowStart(today, WindowDays(input)), today) == WindowDays(input)
  {
  }

  // ---------------------------------------------------------------------
  // The user id -> handles map
  // ---------------------------------------------------------------------

  /**
   * A row of `users` (`id`, `instagram_username`) or of
   * `user_instagram_usernames` (`user_id`, `instagram_username`); a null
   * handle is the empty string.
   */
  datatype HandleRow = HandleRow(uid: string, handle: string)

  /**
   * A row adds a handle only when both its user id and its handle are
   * non-empty. The lemmas below take the normalisation `norm` as a
   * parameter; the route uses `Normalize`.
   */
  predicate Contributes(norm: string -> string, r: HandleRow)
  {
    r.uid != "" && norm(r.handle) != ""
  }

  /** The user ids of the contributing rows, in row order. */
  function UidList(norm: string -> string, rows: seq<HandleRow>): seq<string>
  {
    if rows == [] then []
    else
      var r := rows[|rows| - 1];
      UidList(norm, rows[..|rows| - 1]) + (if Contributes(norm, r) then [r.uid] else [])
  }

  /** The normalised handles the rows give user `uid`. */
  function HandlesOf(norm: string -> string, rows: seq<HandleRow>, uid: string): set<string>
  {
    if rows == [] then {}
    else
      var r := rows[|rows| - 1];
      HandlesOf(norm, rows[..|rows| - 1], uid) + (if Contributes(norm, r) && r.uid == uid then {norm(r.handle)} else {})
  }

  /** A handle belongs to a user exactly when some row of that user normalises to it. */
  lemma {:induction false} HandlesOfMembers(norm: string -> string, rows: seq<HandleRow>, uid: string, h: string)
    ensures h in HandlesOf(norm, rows, uid) <==>
              uid != "" && h != "" && exists i :: 0 <= i < |rows| && rows[i].uid == uid && norm(rows[i].handle) == h
  {
    if rows != [] {
      var init := rows[..|rows| - 1];
      HandlesOfMembers(norm, init, uid, h);
      if exists i :: 0 <= i < |init| && init[i].uid == uid && norm(init[i].handle) == h {
        var i :| 0 <= i < |init| && init[i].uid == uid && norm(init[i].handle) == h;
        assert rows[i] == init[i];
      }
      if exists i :: 0 <= i < |rows| && rows[i].uid == uid && norm(rows[i].handle) == h {
        var i :| 0 <= i < |rows| && rows[i].uid == uid && norm(rows[i].handle) == h;
        if i < |init| {
          assert init[i] == rows[i];
        }
      }
    }
  }

  /** The handles of the users table and of the mapping table together are their union. */
  lemma {:induction false} HandlesOfAppend(norm: string -> string, a: seq<HandleRow>, b: seq<HandleRow>, uid: string)
    ensures HandlesOf(norm, a + b, uid) == HandlesOf(norm, a, uid) + HandlesOf(norm, b, uid)
    decreases |b|
  {
    if b == [] {
      assert a + b == a;
    } else {
      assert (a + b)[..|a + b| - 1] == a + b[..|b| - 1];
      HandlesOfAppend(norm, a, b[..|b| - 1], uid);
    }
  }

  /** A user id is listed exactly when the user has a handle. */
  lemma {:induction false} UidListMembers(norm: string -> string, rows: seq<HandleRow>, uid: string)
    ensures uid in UidList(norm, rows) <==> HandlesOf(norm, rows, uid) != {}
  {
    if rows != [] {
      var r := rows[|rows| - 1];
      UidListMembers(norm, rows[..|rows| - 1], uid);
      if Contributes(norm, r) && r.uid == uid {
        assert norm(r.handle) in HandlesOf(norm, rows, uid);
      }
    }
  }

  /** Every user of `m` has a non-empty set: the handles `seen` gives it. */
  ghost predicate HandleSets(norm: string -> string, m: map<string, set<string>>, seen: seq<HandleRow>)
  {
    forall uid :: uid in m ==> m[uid] == HandlesOf(norm, seen, uid) && m[uid] != {}
  }

  /** `m` and `order` hold, in insertion order, the users and handles of `seen`. */
  ghost predicate Mapping(norm: string -> string, m: map<string, set<string>>, order: seq<string>, seen: seq<HandleRow>)
  {
    order == Dedup(UidList(norm, seen)) &&
    m.Keys == Elems(order) &&
    HandleSets(norm, m, seen)
  }

  lemma UidListSnoc(norm: string -> string, seen: seq<HandleRow>, r: HandleRow)
    ensures UidList(norm, seen + [r]) == UidList(norm, seen) + (if Contributes(norm, r) then [r.uid] else [])
    ensures forall uid :: HandlesOf(norm, seen + [r], uid) ==
                          HandlesOf(norm, seen, uid) + (if Contributes(norm, r) && r.uid == uid then {norm(r.handle)} else {})
  {
    var s := seen + [r];
    assert s[..|s| - 1] == seen;
  }

  /** A row that adds nothing leaves the map as it is. */
  lemma MappingSkip(norm: string -> string, m: map<string, set<string>>, order: seq<string>, seen: seq<HandleRow>, r: HandleRow)
    requires Mapping(norm, m, order, seen) && !Contributes(norm, r)
    ensures Mapping(norm, m, order, seen + [r])
  {
    UidListSnoc(norm, seen, r);
    assert UidList(norm, seen) + [] == UidList(norm, seen);
  }

  lemma SetsStep(norm: string -> string, m: map<string, set<string>>, seen: seq<HandleRow>, r: HandleRow)
    requires HandleSets(norm, m, seen) && Contributes(norm, r)
    requires r.uid !in m ==> HandlesOf(norm, seen, r.uid) == {}
    ensures HandleSets(norm, m[r.uid := (if r.uid in m then m[r.uid] else {}) + {norm(r.handle)}], seen + [r])
  {
    UidListSnoc(norm, seen, r);
  }

  /** A further handle of a known user joins that user's set. */
  lemma MappingAdd(norm: string -> string, m: map<string, set<string>>, order: seq<string>, seen: seq<HandleRow>, r: HandleRow)
    requires Mapping(norm, m, order, seen) && Contributes(norm, r) && r.uid in m
    ensures Mapping(norm, m[r.uid := m[r.uid] + {norm(r.handle)}], order, seen + [r])
  {
    UidListSnoc(norm, seen, r);
    DedupSnoc(UidList(norm, seen), r.uid);
    SetsStep(norm, m, seen, r);
  }

  lemma NewUidOrder(norm: string -> string, m: map<string, set<string>>, order: seq<string>, seen: seq<HandleRow>, r: HandleRow, hs: set<string>)
    requires order == Dedup(UidList(norm, seen)) && m.Keys == Elems(order)
    requires Contributes(norm, r) && r.uid !in m
    ensures order + [r.uid] == Dedup(UidList(norm, seen + [r])) && m[r.uid := hs].Keys == Elems(order + [r.uid])
  {
    UidListSnoc(norm, seen, r);
    DedupSnoc(UidList(norm, seen), r.uid);
    ElemsPush(order, r.uid);
  }

  /** The first handle of a user adds the user, after every user seen before. */
  lemma MappingNew(norm: string -> string, m: map<string, set<string>>, order: seq<string>, seen: seq<HandleRow>, r: HandleRow)
    requires Mapping(norm, m, order, seen) && Contributes(norm, r) && r.uid !in m
    ensures Mapping(norm, m[r.uid := {} + {norm(r.handle)}], order + [r.uid], seen + [r])
  {
    NewUidOrder(norm, m, order, seen, r, {norm(r.handle)});
    UidListMembers(norm, seen, r.uid);
    SetsStep(norm, m, seen, r);
  }

  /**
   * `for (const r of rows) { ...; if (!uid || !h) continue; if
   * (!map.has(uid)) map.set(uid, new Set()); map.get(uid)!.add(h); }`.
   */
  method AddRows(m: map<string, set<string>>, order: seq<string>, ghost seen: seq<HandleRow>, rows: seq<HandleRow>)
    returns (m': map<string, set<string>>, order': seq<string>)
    requires Mapping(Normalize, m, order, seen)
    ensures Mapping(Normalize, m', order', seen + rows)
  {
    m', order' := m, order;
    assert seen + rows[..0] == seen;
    for j := 0 to |rows|
      invariant Mapping(Normalize, m', order', seen + rows[..j])
    {
      var r := rows[j];
      assert seen + rows[..j + 1] == (seen + rows[..j]) + [r];
      var uid, h := r.uid, Normalize(r.handle);
      if uid != "" && h != "" {
        // the user's set, or the new empty set stored first
        var handles := if uid in m' then m'[uid] else {};
        if uid in m' {
          MappingAdd(Normalize, m', order', seen + rows[..j], r);
        } else {
          MappingNew(Normalize, m', order', seen + rows[..j], r);
          order' := order' + [uid];
        }
        m' := m'[uid := handles + {h}];
      } else {
        MappingSkip(Normalize, m', order', seen + rows[..j], r);
      }
    }
    assert rows[..|rows|] == rows;
  }

  // ---------------------------------------------------------------------
  // The records
  // ---------------------------------------------------------------------

  /**
   * The rows the per-user query selects: `username` is one of the user's
   * handles and `post_date` is on or after the window start.
   */
  function Selected(posts: seq<PostRow>, handles: set<string>, start: Day): (rows: seq<PostRow>)
    ensures forall r :: r in rows <==> r in posts && r.username in handles && r.postDate.Some? && r.postDate.value >= start
  {
    if posts == [] then []
    else
      var r := posts[|posts| - 1];
      Selected(posts[..|posts| - 1], handles, start) +
        (if r.username in handles && r.postDate.Some? && r.postDate.value >= start then [r] else [])
  }

  /**
   * A `social_metrics` or `social_metrics_history` record (platform
   * 'instagram'); `at` is `last_updated` or `captured_at`.
   */
  datatype Snapshot = Snapshot(userId: string, followers: int, likes: int, views: int, comments: int,
                               shares: int, saves: int, at: string)

  function UserOf(s: Snapshot): string
  {
    s.userId
  }

  /** The record of one user: the aggregate of its window's rows, followers, shares and saves 0. */
  function SnapshotFor(uid: string, handles: set<string>, posts: seq<PostRow>, start: Day, now: string): (s: Snapshot)
    ensures s.userId == uid && s.at == now
    ensures s.followers == 0 && s.shares == 0 && s.saves == 0
    ensures var agg := TotalOf(Selected(posts, handles, start), BasicMetrics);
      s.views == agg.views && s.likes == agg.likes && s.comments == agg.comments
  {
    var agg := TotalOf(Selected(posts, handles, start), BasicMetrics);
    Snapshot(uid, 0, agg.likes, agg.views, agg.comments, 0, 0, now)
  }

  datatype Outcome =
    | NoMappings
    | Updated(updated: int, days: int, current: seq<Snapshot>, history: seq<Snapshot>)

  lemma DedupElems(xs: seq<string>)
    ensures Elems(Dedup(xs)) == Elems(xs)
  {
  }

  lemma UsersOf(current: seq<Snapshot>, order: seq<string>)
    requires |current| == |order| && forall i :: 0 <= i < |order| ==> current[i].userId == order[i]
    ensures KeyList(current, UserOf) == order
  {
  }

  /**
   * The loop over the mapped users, writing and counting each:
   * one current and one history record per user, in map order.
   */
  method WriteRecords(m: map<string, set<string>>, order: seq<string>, posts: seq<PostRow>, start: Day, now: string)
    returns (updated: int, current: seq<Snapshot>, history: seq<Snapshot>)
    requires forall uid :: uid in order ==> uid in m && m[uid] != {}
    ensures updated == |current| == |order| && current == history
    ensures forall i :: 0 <= i < |order| ==> current[i] == SnapshotFor(order[i], m[order[i]], posts, start, now)
  {
    updated := 0;
    current, history := [], [];
    for j := 0 to |order|
      invariant updated == j == |current|
      invariant current == history
      invariant forall i :: 0 <= i < j ==> current[i] == SnapshotFor(order[i], m[order[i]], posts, start, now)
    {
      var uid := order[j];
      var handles := m[uid];
      // The route skips a user without handles; the map holds none.
      assert handles != {};
      var agg := TotalOf(Selected(posts, handles, start), BasicMetrics);
      var rec := Snapshot(uid, 0, agg.likes, agg.views, agg.comments, 0, 0, now);
      current := current + [rec];
      history := history + [rec];
      updated := updated + 1;
    }
  }

  /**
   * The route after the admin check. `input` is the body's `days`, `today`
   * the current day, `now` the current timestamp, `users` and `mapped` the
   * rows of the two handle tables and `posts` the `instagram_posts_daily`
   * rows the per-user queries select from.
   */
  method RecomputeMetrics(input: Option<int>, today: Day, now: string,
                          users: seq<HandleRow>, mapped: seq<HandleRow>, posts: seq<PostRow>)
    returns (out: Outcome)
    ensures out.NoMappings? <==> UidList(Normalize, users + mapped) == []
    ensures out.Updated? ==>
              out.days == WindowDays(input) &&
              out.current == out.history &&
              KeyList(out.current, UserOf) == Dedup(UidList(Normalize, users + mapped)) &&
              out.updated == |out.current| == |Elems(UidList(Normalize, users + mapped))| &&
              forall i :: 0 <= i < |out.current| ==>
                out.current[i] == SnapshotFor(out.current[i].userId, HandlesOf(Normalize, users + mapped, out.current[i].userId),
                                              posts, WindowStart(today, out.days), now)
  {
    var days := WindowDays(input);
    var start := WindowStart(today, days);
    var m, order := AddRows(map[], [], [], users);
    assert [] + users == users;
    m, order := AddRows(m, order, users, mapped);
    if |order| == 0 {
      return NoMappings;
    }
    var updated, current, history := WriteRecords(m, order, posts, start, now);
    UsersOf(current, order);
    DistinctCard(order);
    DedupElems(UidList(Normalize, users + mapped));
    out := Updated(updated, days, current, history);
  }
}
