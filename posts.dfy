/**
 * A row of the daily post tables (`tiktok_posts_daily`, `instagram_posts_daily`)
 * as the routes read it, and the day a row is counted on.
 */
module Posts {
  import opened Common
  import opened Days

  /**
   * `id` is `video_id` (TikTok) or `id` (Instagram); `takenAt` is the date part
   * of `taken_at` (`None` when it is null or not selected); `text` is the
   * title or caption that the hashtag filter reads.
   */
  datatype PostRow = PostRow(
    id: string, username: string, takenAt: Option<Day>, postDate: Option<Day>, text: string,
    plays: Num, likes: Num, comments: Num, shares: Num, saves: Num)

  /** The day keyed by `post_date` alone. */
  function PostDateKey(r: PostRow): Option<Day>
  {
    r.postDate
  }

  /** The day of `taken_at` when it is set, otherwise `post_date`. */
  function DayKey(r: PostRow): (d: Option<Day>)
    ensures r.takenAt.Some? ==> d == r.takenAt
    ensures r.takenAt.None? ==> d == r.postDate
  {
    if r.takenAt.Some? then r.takenAt else r.postDate
  }

  /**
   * The counters of a row, each read as 0 when missing. Where the query does not
   * select shares and saves (`withSharesSaves` false) they are 0.
   */
  function RowMetrics(r: PostRow, withSharesSaves: bool): Metrics
  {
    Metrics(Val(r.plays), Val(r.likes), Val(r.comments),
            if withSharesSaves then Val(r.shares) else 0,
            if withSharesSaves then Val(r.saves) else 0)
  }

  /** Views, likes and comments only. */
  function BasicMetrics(r: PostRow): Metrics
  {
    RowMetrics(r, false)
  }

  /** The day keys wrapped as optional days, to match a row's optional day. */
  function SomeKeys(keys: seq<Day>): (ks: seq<Option<Day>>)
    ensures |ks| == |keys| && forall i :: 0 <= i < |keys| ==> ks[i] == Some(keys[i])
  {
    seq(|keys|, i requires 0 <= i < |keys| => Some(keys[i]))
  }

  lemma SomeKeysDistinct(keys: seq<Day>, start: Day, end: Day)
    requires IsDayRange(keys, start, end)
    ensures Distinct(SomeKeys(keys))
  {
  }

  /** A day lies in the window exactly when its wrapped form is one of the keys. */
  lemma SomeKeysMembers(keys: seq<Day>, start: Day, end: Day, d: Option<Day>)
    requires IsDayRange(keys, start, end)
    ensures d in SomeKeys(keys) <==> d.Some? && start <= d.value <= end
  {
    if d.Some? && start <= d.value <= end {
      assert SomeKeys(keys)[d.value - start] == d;
    }
  }

  /** The rows whose `taken_at` falls on `date`. */
  function TakenOn(rows: seq<PostRow>, date: Day): seq<PostRow>
  {
    Filter(rows, (r: PostRow) => r.takenAt == Some(date))
  }

  /** The rows without `taken_at` whose `post_date` is `date`. */
  function LegacyOn(rows: seq<PostRow>, date: Day): seq<PostRow>
  {
    Filter(rows, (r: PostRow) => r.takenAt.None? && r.postDate == Some(date))
  }

  /**
   * A row is in the taken-on-day rows or the legacy rows of a day exactly
   * when its day is that day.
   */
  lemma TakenOrLegacy(rows: seq<PostRow>, date: Day, r: PostRow)
    ensures r in TakenOn(rows, date) + LegacyOn(rows, date) <==> r in rows && DayKey(r) == Some(date)
  {
  }

  /** The usernames of the rows, in order. */
  function Usernames(rows: seq<PostRow>): (us: seq<string>)
    ensures |us| == |rows| && forall i :: 0 <= i < |rows| ==> us[i] == rows[i].username
  {
    seq(|rows|, i requires 0 <= i < |rows| => rows[i].username)
  }
}
