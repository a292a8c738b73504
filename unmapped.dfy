/**
 * The unmapped-handles report of src/app/api/debug/unmapped/route.ts: the
 * handles that posted on a day, how many there are, and the first fifty of
 * them that belong to no employee, for TikTok and for Instagram.
 */
module Unmapped {
  import opened Common
  import opened Days
  import opened Handles
  import opened Posts

  /** At most this many unmapped handles are listed. */
  const Shown := 50

  /** One platform's part of the response. */
  datatype Report = Report(present: int, unmapped: seq<string>)

  /**
   * `present` counts the distinct handles that posted; `unmapped` lists,
   * without repeats, as many of the handles that posted and are not
   * employees' as the limit allows.
   */
  ghost predicate Reports(rep: Report, present: set<string>, known: set<string>)
  {
    rep.present == |present| &&
    Distinct(rep.unmapped) &&
    (forall h :: h in rep.unmapped ==> h in present && h !in known) &&
    |rep.unmapped| == Min(Shown, |present - known|)
  }

  /** The handles of `all`, in order, that are not in the employee set. */
  function Missing(all: seq<string>, known: seq<string>): (r: seq<string>)
  {
    Filter(all, (h: string) => h !in known)
  }

  /** Without repeats in `all`, the unmapped handles are the set difference, each once. */
  lemma MissingElems(all: seq<string>, known: seq<string>)
    requires Distinct(all)
    ensures Distinct(Missing(all, known))
    ensures Elems(Missing(all, known)) == Elems(all) - Elems(known)
    ensures |Missing(all, known)| == |Elems(all) - Elems(known)|
  {
    FilterDistinct(all, (h: string) => h !in known);
    var r := Missing(all, known);
    assert Elems(r) == Elems(all) - Elems(known) by {
      forall h ensures h in Elems(r) <==> h in Elems(all) - Elems(known) {
        if h in Elems(all) - Elems(known) {
          var i :| 0 <= i < |all| && all[i] == h;
        }
      }
    }
    DistinctCard(r);
  }

  /** The report built from the distinct handles `all` that posted, in the order they were added. */
  lemma ReportOf(all: seq<string>, known: seq<string>, present: set<string>)
    requires Distinct(all) && Elems(all) == present
    ensures Reports(Report(|all|, Take(Missing(all, known), Shown)), present, Elems(known))
  {
    DistinctCard(all);
    var unmapped := Missing(all, known);
    MissingElems(all, known);
    TakeDistinct(unmapped, Shown);
    var shown := Take(unmapped, Shown);
    assert forall h :: h in shown ==> h in present && h !in Elems(known) by {
      forall h | h in shown ensures h in present && h !in Elems(known) {
        assert h in Elems(unmapped);
      }
    }
  }

  /**
   * One platform: collect the normalised usernames that posted into a set,
   * count them, and list the first fifty, in the set's insertion order, that
   * are not in the employee set `known`.
   */
  method PlatformReport(known: seq<string>, usernames: seq<string>) returns (rep: Report)
    ensures rep.present == |SetOrder([], usernames)|
    ensures rep.unmapped == Take(Missing(SetOrder([], usernames), known), Shown)
    ensures Reports(rep, NormSet(usernames), Elems(known))
  {
    var all := AddHandles([], usernames);
    assert Elems(all) == NormSet(usernames);
    ReportOf(all, known, NormSet(usernames));
    rep := Report(|all|, Take(Missing(all, known), Shown));
  }

  /** The TikTok rows of a day: `taken_at` on that day, or no `taken_at` and `post_date` that day. */
  function TikTokOnDay(rows: seq<PostRow>, date: Day): seq<PostRow>
  {
    Filter(rows, (r: PostRow) => DayKey(r) == Some(date))
  }

  /** The Instagram rows of a day: those taken that day, then the legacy rows posted that day. */
  function InstagramOnDay(rows: seq<PostRow>, date: Day): seq<PostRow>
  {
    TakenOn(rows, date) + LegacyOn(rows, date)
  }

  /**
   * The route for day `date`: `emps` are the `karyawan` users, `ttMap` and
   * `igMap` the raw handles of the two mapping tables, `tiktokRows` and
   * `instagramRows` the rows of the two daily post tables. Each report lists
   * the first fifty unmapped handles in the order the day's rows added them.
   */
  method UnmappedHandles(date: Day, emps: seq<Employee>, ttMap: seq<string>, igMap: seq<string>,
                         tiktokRows: seq<PostRow>, instagramRows: seq<PostRow>)
    returns (tiktok: Report, instagram: Report)
    ensures var all := SetOrder([], Usernames(TikTokOnDay(tiktokRows, date)));
      tiktok == Report(|all|, Take(Missing(all, KnownOrder(TikTokHandles(emps), ttMap)), Shown))
    ensures var all := SetOrder([], Usernames(InstagramOnDay(instagramRows, date)));
      instagram == Report(|all|, Take(Missing(all, KnownOrder(InstagramHandles(emps), igMap)), Shown))
    ensures Reports(tiktok, NormSet(Usernames(TikTokOnDay(tiktokRows, date))), KnownSet(TikTokHandles(emps), ttMap))
    ensures Reports(instagram, NormSet(Usernames(InstagramOnDay(instagramRows, date))),
                    KnownSet(InstagramHandles(emps), igMap))
  {
    var ttSet := EmployeeHandles(TikTokHandles(emps), ttMap);
    var igSet := EmployeeHandles(InstagramHandles(emps), igMap);
    tiktok := PlatformReport(ttSet, Usernames(TikTokOnDay(tiktokRows, date)));
    instagram := PlatformReport(igSet, Usernames(InstagramOnDay(instagramRows, date)));
  }
}
