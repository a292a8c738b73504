# Clipper analytics aggregation in Dafny

This project models the integer aggregation of a social-media analytics
dashboard for a team of employees posting on TikTok and Instagram. The
aggregation runs between the database queries and the charts:

- the analytics series route: post-date sums per tracked account, the
  accrual delta calculator over cumulative metric snapshots, and the cutoff
  mask;
- the dashboard page: sums per date across groups, zero-masking up to a
  cutoff, the header totals, weekly bucketing, the weekly periods and their
  merge, the chart lines, and the posts per day and per period;
- the posts-series route: distinct posts per day for each platform, with the
  campaign hashtag gate;
- the Instagram recompute route: the window clamp, the map from user id to
  handles, and the aggregate and history records;
- the two debug routes: unmapped handles, and post counts against row totals;
- the employees route: the fallback listing and keep-first de-duplication.

Dates are day numbers (days since 1970-01-01 UTC). The source compares
`YYYY-MM-DD` strings, and their order is the order of day numbers. A counter
is an integer. A numeric database column that is null or missing reads as 0,
as the source's `|| 0` and `?? 0` defaults make it (two places where the
source does otherwise are listed under "Left out"). Every
database query becomes a sequence of the rows it returns, passed in as an
argument. A JavaScript `Map` or `Set` is a Dafny `map` or `set` beside a
sequence that records its insertion order.

Each loop of the source is a method with a `while` or `for` loop, proved
against a reference function. Lemmas then state what the reference function
promises: totals kept by grouping, last-wins or first-wins lookups, masks
that are idempotent, deltas that telescope.

Modules: `Common` (counters, options, sequences, stable sort, keyed
lookups), `Days`, `Posts`, `Handles`, `Grouping`, `AnalyticsSeries`,
`Dashboard`, `DashboardWeekly`, `WeeklyMerge`, `WeeklyLines`, `PostsSeries`,
`Recompute`, `Unmapped`, `PostsCount` and `Employees`.

Where the documented design of the system and its code differ, the model follows
the code:

- The documented design describes the accrual calculator for one post. The code
  computes it for each user, over the user's aggregate history records.
- The documented design says a handle is normalised by lower-casing it and
  stripping a leading '@'. The code also trims it first. `Handles.NormalizeNotIdempotent`
  shows that the result is not always normal: stripping the '@' of "@ x"
  exposes a space.
- The documented design describes reconciling duplicate snapshots by their first
  and last capture (the top-videos list). The code does that in SQL on the
  database, so it is not part of this model.
- The documented three-day example (views 100, 150, 140 giving 100, 50
  and 0) is `AnalyticsSeries.AccrualExample`.

## Model

| member | source | states |
|---|---|---|
| Days.DayKeys | src/app/api/analytics/series/route.ts:40-43 | the keys are every day from start to end, ascending by one day; there are end − start + 1 of them, or none when start > end |
| Days.DayRangeMembers | src/app/api/analytics/series/route.ts:40-43 | a day is a key exactly when it lies in [start, end], and consecutive keys differ by one day |
| Days.DayRangeDistinct | src/app/api/posts-series/route.ts:126-131 | the keys of a day range are strictly ascending, so no day repeats |
| Handles.NormalForm | src/app/api/analytics/series/route.ts:37 | a normalised handle has no upper-case ASCII letter, does not start with '@', does not end in white space, and is no longer than the input |
| Handles.NormalizeKeepsNormal | src/app/api/analytics/series/route.ts:37 | a handle that is already trimmed, lower-case and free of a leading '@' is left unchanged |
| Handles.NormalizeNotIdempotent | src/app/api/analytics/series/route.ts:37 | normalising twice can differ from normalising once: "@ x" becomes " x", then "x" |
| Handles.NormSetMembers | src/app/api/debug/unmapped/route.ts:26-37 | a handle is in the set exactly when it is non-empty and the normalisation of some raw handle |
| Handles.AddHandles | src/app/api/debug/unmapped/route.ts:26-37 | the set lists, in order of first appearance, its old handles followed by the non-empty normal forms of the raw handles: old handles keep their places, each new one is appended when it first occurs, none is listed twice, and nothing else is in it |
| Handles.EmployeeHandles | src/app/api/debug/posts-count/route.ts:27-57 | the employee handle set lists, once each and in order of first appearance, the non-empty normal forms of the users table's handles and then, when there is an employee, of the mapping table's; its members are exactly those |
| Posts.TakenOrLegacy | src/app/api/debug/posts-count/route.ts:82-94 | the rows taken on a day followed by the rows with no `taken_at` posted on it are exactly the rows whose day is that day |
| Grouping.GroupsPartition | src/app/dashboard/page.tsx:96-110 | when every row's key is one of the distinct keys, the sums of the groups add up to the sum of all rows |
| Grouping.SeriesTotal | src/app/dashboard/page.tsx:96-110 | the per-key series of group sums adds up to the total of the rows |
| Grouping.AddToGroup | src/app/dashboard/page.tsx:102-106 | one row adds its counters to the entry of its key, creating a zero entry and appending the key to the insertion order when the key is new |
| Grouping.GroupInto | src/app/dashboard/page.tsx:98-108 | the accumulator after a loop over the rows holds, for each key met so far, the sum of that key's rows, in order of first appearance |
| Grouping.SortedSumsMembers | src/app/dashboard/page.tsx:96-110 | a point of the sorted sums is a date some row carries with the sum of the rows of that date |
| Grouping.SortedSumsTotal | src/app/dashboard/page.tsx:96-110 | summed over the points, every counter equals its sum over the rows |
| Grouping.GroupedListing | src/app/dashboard/page.tsx:109 | the accumulator's values sorted by key are the reference sorted sums |
| AnalyticsSeries.PostDateByAccount | src/app/api/analytics/series/route.ts:80-105 | the map has one series per tracked account, and each is that account's reference series; rows of other usernames are skipped |
| AnalyticsSeries.AccountSeriesTotal | src/app/api/analytics/series/route.ts:97-105 | an account's series adds up to the counters of all its rows in the window |
| AnalyticsSeries.DayTotals | src/app/api/analytics/series/route.ts:204-249 | the loop over the rows produces the reference per-day series |
| AnalyticsSeries.DaySeriesTotal | src/app/api/analytics/series/route.ts:241-249 | when every row's day lies in the window, the series adds up to the counters of all rows |
| AnalyticsSeries.DaySeriesSkips | src/app/api/analytics/series/route.ts:246 | a row without a day, or with a day outside the window, changes nothing |
| AnalyticsSeries.LastByDay | src/app/api/analytics/series/route.ts:141-147 | for every user and day the map holds the last snapshot of that user captured that day, and none when there is none |
| AnalyticsSeries.LastSnapIsLast | src/app/api/analytics/series/route.ts:141-147 | the snapshot kept for a user and day captures that day, and no later row captures it; there is none exactly when no row does |
| AnalyticsSeries.LastSnapIsLatest | src/app/api/analytics/series/route.ts:140-147 | with rows ordered by capture time, the kept snapshot is captured no earlier than any other of that user and day |
| AnalyticsSeries.DayDelta | src/app/api/analytics/series/route.ts:154-170 | a day's delta has every counter non-negative, and is zero when the day has no snapshot |
| AnalyticsSeries.AccrualPoints | src/app/api/analytics/series/route.ts:151-172 | the accrual series has one point per day key, dated by the key, with every counter non-negative |
| AnalyticsSeries.AccrualSeries | src/app/api/analytics/series/route.ts:150-172 | the delta loop, with `prev` carried across days, produces the reference accrual series |
| AnalyticsSeries.PrevDayIsLatest | src/app/api/analytics/series/route.ts:150-171 | the previous snapshot is that of the latest earlier key that has one, or of the day before the window when no earlier key has one; it is absent exactly when neither exists |
| AnalyticsSeries.AccrualPointMeaning | src/app/api/analytics/series/route.ts:152-171 | a gap day is zero; a day after an earlier snapshot gets the clamped growth since it; a day after no earlier key but with a snapshot the day before the window gets the clamped growth since that; a first snapshot gets its own clamped values (the cold start) |
| AnalyticsSeries.AccrualExample | src/app/api/analytics/series/route.ts:150-172 | views of 100, 150 and 140 on three days with nothing before give 100, 50 and 0 |
| AnalyticsSeries.Telescoping | src/app/api/analytics/series/route.ts:150-172 | with a snapshot the day before the window, the deltas add up to at least the growth up to the last snapshot; with counters that never fall they add up to exactly that growth |
| AnalyticsSeries.Collect | src/app/api/analytics/series/route.ts:131-176 | one series per user id, which is the accrual series of that user's last snapshots per day |
| AnalyticsSeries.EffectiveCutoff | src/app/api/analytics/series/route.ts:188-190 | the effective cutoff is the later of the configured cutoff and the window start |
| AnalyticsSeries.Mask | src/app/api/analytics/series/route.ts:191 | masking keeps the length and the date of every point |
| AnalyticsSeries.MaskWindow | src/app/api/analytics/series/route.ts:188-192 | with the effective cutoff, points before the configured cutoff become zero and the others are unchanged; with a cutoff no later than the start, nothing changes |
| AnalyticsSeries.MaskIdempotent | src/app/api/analytics/series/route.ts:191 | masking twice with the same cutoff is masking once |
| AnalyticsSeries.MaskCompose | src/app/api/analytics/series/route.ts:191 | masking with two cutoffs in turn is masking with the later one |
| AnalyticsSeries.MaskPrefix | src/app/api/analytics/series/route.ts:191 | on a day range, masking zeroes exactly the leading points before the cutoff and keeps the rest |
| AnalyticsSeries.MaskTotal | src/app/api/analytics/series/route.ts:191 | the masked series adds up to the points from the cutoff on |
| AnalyticsSeries.MaskAll | src/app/api/analytics/series/route.ts:192 | every account keeps its key, and its series is replaced by the masked series |
| Dashboard.SumByDate | src/app/dashboard/page.tsx:96-110 | one point per distinct date of all the arrays, strictly ascending, each counter the sum over the entries of that date; the points add up to all entries |
| Dashboard.ZeroBefore | src/app/dashboard/page.tsx:126-138 | masking keeps the length of the series |
| Dashboard.ZeroBeforeEffect | src/app/dashboard/page.tsx:126-138 | non-objects and objects dated after the cutoff are unchanged; an object dated on or before it keeps its date and which fields are present, and every present counter becomes 0 |
| Dashboard.ZeroBeforeIdempotent | src/app/dashboard/page.tsx:126-138 | masking twice is masking once |
| Dashboard.ZeroBeforeIsMask | src/app/dashboard/page.tsx:126-138 | on a series of objects the dashboard mask is the route's mask with a cutoff one day later |
| Dashboard.SumSeriesAppend | src/app/dashboard/page.tsx:151-155 | the header sum of a series in two parts is the sum of the two parts' sums |
| Dashboard.HeaderTotals | src/app/dashboard/page.tsx:150-156 | the header totals of the masked series are the sums of its entries dated after the cutoff |
| Dashboard.TotalPostsAppend | src/app/dashboard/page.tsx:43-46 | the total posts of two runs of entries one after the other is the sum of their totals, as the left-to-right `reduce` adds one entry at a time |
| Dashboard.TotalPostsBounds | src/app/dashboard/page.tsx:43-46 | with non-negative counts, every day's count is at most the total posts, and every prefix sum is non-negative |
| Dashboard.PostsMap | src/app/dashboard/page.tsx:771-774 | the posts map has the days of the entries in order of first appearance, and each holds the count of the last entry of that day |
| Dashboard.LastPostsIsLast | src/app/dashboard/page.tsx:771-774 | the count kept for a day is that of an entry of that day with no later entry of it; none when no entry has that day |
| Dashboard.AlignToTotal | src/app/dashboard/page.tsx:856-861 | a group's values have the length of the total series, one per total date |
| Dashboard.AlignedValueMeaning | src/app/dashboard/page.tsx:856-861 | a date the group lacks gives 0; otherwise the value is the metric of the group's last entry of that date |
| Dashboard.TotalSeries | src/app/dashboard/page.tsx:815-820 | the daily view's total is the combined total for all platforms; otherwise it is the combined total or a non-empty platform total of the response, and it is empty only when the combined total is |
| Dashboard.GroupSeries | src/app/dashboard/page.tsx:848-854 | a group's series is its combined series for all platforms, its own platform array whenever the filter names a platform whose array it has, and otherwise its combined series |
| Dashboard.EmptyPlatformArray | src/app/dashboard/page.tsx:815-820 | with the TikTok filter and an empty TikTok total, the chart falls back to the all-platform total, while an empty TikTok group series is used as it is |
| Dashboard.MaskEntries | src/app/dashboard/page.tsx:126-138 | masking a series of entries is the array mask on the same entries as objects |
| Dashboard.MaskResponse | src/app/dashboard/page.tsx:139-149 | in accrual mode `total`, each present platform total and each group's combined series are masked, and every group afterwards has both platform arrays, a missing one becoming empty |
| Dashboard.MaskedMissingPlatform | src/app/dashboard/page.tsx:144-148 | a group without a TikTok array falls back to its combined series before the mask, but after the mask the TikTok filter gives it an empty series, so its daily line is 0 on every date |
| Dashboard.DailyPosts | src/app/dashboard/page.tsx:867-873 | one value per date of the total series: the count of the last posts entry of that date, or 0 |
| DashboardWeekly.WeekOf | src/app/dashboard/page.tsx:355-356 | a day of week w lies in the seven days from start + 7w to start + 7w + 6 |
| DashboardWeekly.WeekOfUnique | src/app/dashboard/page.tsx:355-356 | the week of a day is the only week whose seven days contain it |
| DashboardWeekly.Weekly | src/app/dashboard/page.tsx:371-373 | the buckets are strictly ascending by week number |
| DashboardWeekly.WeekSum | src/app/dashboard/page.tsx:351-369 | the sum of a week's entries is the sum over exactly the entries dated in its seven days |
| DashboardWeekly.WeeklyBucket | src/app/dashboard/page.tsx:358-368 | each bucket spans the seven days of its week, holds at least one entry, and holds the sum of the entries dated in those days |
| DashboardWeekly.WeeklyCovers | src/app/dashboard/page.tsx:351-369 | every entry falls in a bucket of its week whose days contain its date |
| DashboardWeekly.WeeklyTotal | src/app/dashboard/page.tsx:346-374 | summed over the buckets, every counter equals its sum over the entries |
| DashboardWeekly.GroupByWeek | src/app/dashboard/page.tsx:346-374 | the loop and the sort produce the reference weekly buckets |
| DashboardWeekly.Realtime | src/app/dashboard/page.tsx:477-479 | an entry is kept exactly when it is dated on or after the real-time start, 2026-01-03 |
| DashboardWeekly.OverlapsMeaning | src/app/dashboard/page.tsx:536 | for a non-empty week and range, the overlap test holds exactly when they share a day |
| DashboardWeekly.WeeklyGroupsMembers | src/app/dashboard/page.tsx:498-514 | a weekly group comes from a group of the data |
| DashboardWeekly.MaskedGroupLeavesWeekly | src/app/dashboard/page.tsx:499-512 | after the accrual mask a group without a TikTok array gives no weekly group under the TikTok filter, while without the mask it gives its combined real-time series by week |
| DashboardWeekly.GroupsWeekly | src/app/dashboard/page.tsx:498-514 | the loop over the groups produces the reference weekly groups, in group order |
| DashboardWeekly.BucketsAtMembers | src/app/dashboard/page.tsx:519-523 | an entry a weekly group pushes for week n is one of its buckets numbered n |
| DashboardWeekly.BucketsAtOnce | src/app/dashboard/page.tsx:519-523 | with ascending week numbers a group pushes at most one entry per week, and one exactly when it has that week |
| DashboardWeekly.GroupsAtMembers | src/app/dashboard/page.tsx:517-524 | an entry of week n is some weekly group's bucket numbered n, with its views, likes and comments |
| DashboardWeekly.PushBuckets | src/app/dashboard/page.tsx:519-523 | one group's buckets are appended onto the list of their week numbers |
| DashboardWeekly.GroupsByWeekNum | src/app/dashboard/page.tsx:517-524 | the list of every week number is the reference list of that week |
| DashboardWeekly.WeekPeriodsMembers | src/app/dashboard/page.tsx:527-554 | a real-time period is the period of a week of the total that overlaps the range |
| DashboardWeekly.WeekPeriodsAscending | src/app/dashboard/page.tsx:527-554 | weeks in ascending order give periods strictly ascending by start |
| DashboardWeekly.RealtimePeriods | src/app/dashboard/page.tsx:527-554 | the loop produces the reference periods from the lookup maps |
| DashboardWeekly.WeeklyPeriods | src/app/dashboard/page.tsx:475-555 | the real-time data bucketed and turned into periods is the reference list of periods |
| DashboardWeekly.ViewPeriodsAscending | src/app/dashboard/page.tsx:475-555 | the periods are strictly ascending by start, seven days long, real-time and not historical |
| WeeklyMerge.NameSumsMembers | src/app/dashboard/page.tsx:586-594 | a merged group entry is a name some entry carries, with the sum over that name |
| WeeklyMerge.NameSumsNames | src/app/dashboard/page.tsx:586-594 | the merged entries carry each name once, in order of first appearance |
| WeeklyMerge.NameSumsTotal | src/app/dashboard/page.tsx:586-594 | merging by name neither loses nor invents a view, like or comment |
| WeeklyMerge.MergeGroups | src/app/dashboard/page.tsx:586-594 | merging a period's group entries into a merged list gives the merge of all the entries together |
| WeeklyMerge.MergePeriods | src/app/dashboard/page.tsx:563-597 | the merge loop produces the reference merge |
| WeeklyMerge.ValuesMerged | src/app/dashboard/page.tsx:597 | the map's values in insertion order are the reference merged periods |
| WeeklyMerge.MergedSpans | src/app/dashboard/page.tsx:563-597 | the merged periods carry each start and end once, in order of first appearance |
| WeeklyMerge.MergedTotal | src/app/dashboard/page.tsx:577-585 | merging neither loses nor invents a view, like or comment of the totals |
| WeeklyMerge.CombinedSame | src/app/dashboard/page.tsx:568-595 | one more period adds its nine counters and its group entries to the merged period of its span, and the first period's flag is kept |
| WeeklyMerge.MergedDistinct | src/app/dashboard/page.tsx:563-597 | when no two periods share a span, the merge only combines each period's group entries by name |
| WeeklyMerge.WeeklyChart | src/app/dashboard/page.tsx:559-610 | sort, merge, sort and the repeated sort produce the reference weekly view |
| WeeklyMerge.AscendingSorted | src/app/dashboard/page.tsx:560 | sorting periods already ascending by start changes nothing |
| WeeklyMerge.WeeklyViewNormal | src/app/dashboard/page.tsx:475-610 | the weekly view is the real-time periods each on its own: the merge finds no two periods with the same span |
| WeeklyLines.GroupLineOfMerged | src/app/dashboard/page.tsx:748-751 | on a merged period a group's value is the summed metric of that group's merged entries, 0 when there were none |
| WeeklyLines.GroupLineView | src/app/dashboard/page.tsx:744-752 | in the weekly view a group's value at a period is the sum of that period's group entries of its name |
| WeeklyLines.PeriodPosts | src/app/dashboard/page.tsx:780-788 | the loop sums the counts of the posts map's days within the period |
| WeeklyLines.PostsLine | src/app/dashboard/page.tsx:769-789 | there is a posts line exactly when posts are shown and there are posts; it has one value per period, the posts of the distinct days within it |
| WeeklyLines.WindowPostsSplit | src/app/dashboard/page.tsx:776-789 | the posts of two adjacent periods add up to the posts of both together |
| WeeklyLines.WindowPostsDistinct | src/app/dashboard/page.tsx:771-789 | when no day repeats, a period's posts are the total of the entries dated within it |
| PostsSeries.IdsOnMembers | src/app/api/posts-series/route.ts:167-178 | a day's id set holds exactly the ids of rows that pass the gate and have that day |
| PostsSeries.RepeatCountedOnce | src/app/api/posts-series/route.ts:167-178 | a repeated row of an id already counted on a day leaves that day's count unchanged |
| PostsSeries.NoTagsKeepAll | src/app/api/posts-series/route.ts:171-173 | with no required hashtags, every row with that day is counted |
| PostsSeries.RowDaysMembers | src/app/api/posts-series/route.ts:255-270 | a day gets an id set exactly when some row is counted on it |
| PostsSeries.IdsByDate | src/app/api/posts-series/route.ts:255-270 | the map holds one id set for each day with a counted row, holding exactly that day's ids |
| PostsSeries.InitDays | src/app/api/posts-series/route.ts:126-131 | every day from start to end, and no other, starts with zero posts, in ascending order |
| PostsSeries.AddCounts | src/app/api/posts-series/route.ts:197-202 | every day with ids gets the platform's count set to the number of distinct ids, added to the day's total; other days are unchanged |
| PostsSeries.Record | src/app/api/posts-series/route.ts:199-200 | recording a platform's count overwrites that platform's count of the day, keeps the other platform's, and adds the count to the day's total |
| PostsSeries.SumSplits | src/app/api/posts-series/route.ts:284-291 | when each day's posts are its TikTok and Instagram posts, the total is the TikTok total plus the Instagram total |
| PostsSeries.SortedEntries | src/app/api/posts-series/route.ts:282-289 | the sorted entries are ascending by date and list each day of the map once with its counts |
| PostsSeries.CountPlatform | src/app/api/posts-series/route.ts:134 | a platform that is switched off counts nothing; one that is on records each day's distinct ids |
| PostsSeries.Series | src/app/api/posts-series/route.ts:55-291 | no employees give an empty series; otherwise the series is ascending by date, lists a day exactly when it is in the range or has a counted post, gives each day its distinct TikTok and Instagram posts and their sum, and the total is the sum of the posts |
| Recompute.WindowDays | src/app/api/admin/ig/recompute-metrics/route.ts:31 | the window is 1 to 180 days: 60 when missing or 0, the requested number within the bounds, 180 above them and 1 below them |
| Recompute.WindowDaysStable | src/app/api/admin/ig/recompute-metrics/route.ts:31 | clamping a clamped window again changes nothing |
| Recompute.WindowSpan | src/app/api/admin/ig/recompute-metrics/route.ts:32-33 | the window from its start to today covers exactly the clamped number of days |
| Recompute.HandlesOfMembers | src/app/api/admin/ig/recompute-metrics/route.ts:36-52 | a user's handles are the non-empty normalised handles of rows with that non-empty user id |
| Recompute.HandlesOfAppend | src/app/api/admin/ig/recompute-metrics/route.ts:39-52 | the user table and the mapping table contribute the union of their handles |
| Recompute.UidListMembers | src/app/api/admin/ig/recompute-metrics/route.ts:46-55 | a user id is mapped exactly when it has at least one handle |
| Recompute.AddRows | src/app/api/admin/ig/recompute-metrics/route.ts:39-52 | the map after the rows holds every mapped user with its handles, in order of first appearance |
| Recompute.Selected | src/app/api/admin/ig/recompute-metrics/route.ts:62-66 | the selected rows are those of the user's handles posted on or after the window start |
| Recompute.WriteRecords | src/app/api/admin/ig/recompute-metrics/route.ts:57-95 | one current and one identical history record per mapped user, in map order, and the count updated is their number |
| Recompute.RecomputeMetrics | src/app/api/admin/ig/recompute-metrics/route.ts:29-97 | no mapped user gives the no-mappings answer; otherwise each mapped user once gets its window's aggregate, current and history agree, and the count is the number of mapped users |
| Unmapped.MissingElems | src/app/api/debug/unmapped/route.ts:58-59 | the unmapped handles are the set difference of the present handles and the employee handles, each once |
| Unmapped.ReportOf | src/app/api/debug/unmapped/route.ts:58-61 | the first 50 unmapped handles of a distinct handle list are distinct, present and not an employee's, and there are as many of them as unmapped handles up to 50; the present count is the number of distinct present handles |
| Unmapped.PlatformReport | src/app/api/debug/unmapped/route.ts:53-61 | one platform's report counts the distinct non-empty normal forms of its usernames and lists the first 50 of them, in the set's insertion order, that are not in the employee set |
| Unmapped.UnmappedHandles | src/app/api/debug/unmapped/route.ts:20-61 | the TikTok report covers that day's TikTok rows, the Instagram report the taken and then the legacy rows of that day; each lists the first 50 handles, in insertion order, not in its employee handle set (itself in insertion order), with the present count |
| PostsCount.IdsOfMembers | src/app/api/debug/posts-count/route.ts:69-73 | the id set holds exactly the ids of the rows |
| PostsCount.RepeatAddsToTotals | src/app/api/debug/posts-count/route.ts:74-78 | a repeated id adds nothing to the post count but still adds its counters to the totals |
| PostsCount.CountRows | src/app/api/debug/posts-count/route.ts:69-79 | the post count is the number of distinct ids and the totals are the sums over every row |
| PostsCount.InstagramRowsMembers | src/app/api/debug/posts-count/route.ts:82-94 | the Instagram rows are exactly the rows of employee handles whose day is the date |
| PostsCount.ListHandles | src/app/api/debug/posts-count/route.ts:108-109 | the listed handles are the set's first 20 in insertion order, or all of them when there are fewer: distinct handles of the set |
| PostsCount.PostsCount | src/app/api/debug/posts-count/route.ts:21-119 | each platform counts the distinct ids and sums the counters of its employees' rows of that date, and lists the first 20 handles of its employee set in insertion order |
| Employees.KeepFirst | src/app/api/employees/route.ts:69-82 | the output holds each key of a present row once, in order of first appearance, with the view of the first row of that key |
| Employees.UniqueEmployees | src/app/api/employees/route.ts:69-82 | one listing per joined user id, in order of first appearance, built from the first row of that id |
| Employees.FirstRowWins | src/app/api/employees/route.ts:70-79 | the kept user is that of a row with no earlier present row of the same id |
| Employees.ListEmployees | src/app/api/employees/route.ts:21-86 | with no employee accounts every user is listed once as given; otherwise each joined user id once, first row winning, and no joined user is missing; every listing keeps its user's id, username and full name, and shows the full name, or the username when the full name is empty |

## Left out

- Database access (all Supabase queries, upserts and inserts): every query is a sequence of the rows it returns, and every write is a returned record.
- Authentication and the admin checks of the routes: they only decide whether a route runs at all.
- Error responses (status 500, and the employees route's errors at src/app/api/employees/route.ts:61-64 and 87-90): thrown exceptions are not modelled.
- The resolution of user ids from handles in the analytics route (`addMap` and the keyers, src/app/api/analytics/series/route.ts:110-129 and 177-182): it is a database lookup; `Collect` takes the user ids as input and keys its result by user id.
- The handle lists of the analytics route (src/app/api/analytics/series/route.ts:53-72): they only choose the rows a query selects.
- The handle sets of the posts-series route (src/app/api/posts-series/route.ts:59-120): the Instagram set only chooses the rows the Instagram queries select (240, 247). The TikTok set is built but never read: no TikTok query (143-153, 157-162, 183-186, 209-218) filters by username, so the TikTok counts take in every account's posts in the window, employees' or not. `PostsSeries.Series` receives the rows the queries return, which for TikTok are all the window's rows.
- The accrual-mode replacement of the account series by post-date totals and the delegation to the groups series response (src/app/api/analytics/series/route.ts:251-274): the replacement series are modelled (`DaySeries`, `DayTotals`), but the response assembly and the network call are not.
- The fallback query chains of the posts-series route (src/app/api/posts-series/route.ts:157-165, 180-194 and 204-229). The first only chooses which query's rows arrive. The other two can count rows the model does not: the one-day fallback at 180-194 adds its rows without the hashtag check of 171-173; when every TikTok count is 0, the count fallback at 204-229 sets each day's TikTok count to the database's exact row count, which is neither gated by hashtag nor distinct by video, and adds it to the day's total. `PostsSeries.Series`' distinct, gated counts therefore hold only when neither of those two fallbacks fires.
- The hashtag predicate `hasRequiredHashtag`: its code is not part of this model, so it is a parameter of the gate.
- AnalyticsSeries.PostDateByAccount: keys its map by username rather than by `tiktok:` or `instagram:` plus username; each platform is one call.
- The historical periods of the weekly view and `mergeHistoricalData` (src/app/dashboard/page.tsx:239 and 392-473): the code switches them off with a constant condition, so no historical period reaches the merge. The merge itself is modelled on arbitrary periods.
- Logging, console output and audit tables (src/app/dashboard/page.tsx:600-666), chart labels, colours, datasets and the React state of the page.
- JavaScript numbers: counters are unbounded integers, and floating-point rounding and overflow are not modelled.
- Recompute.WindowDays: models an integer `days` only; a fractional or non-numeric input is not modelled.
- Dates and times: timestamps are day numbers, and `captured_at` is seconds since the epoch cut to its UTC day.
- Handles.Normalize: trims and lower-cases ASCII only; Unicode white space and case mapping are not modelled.
- Two places where a counter the model reads as 0 is not 0 in the source: the accrual deltas of src/app/api/analytics/series/route.ts:156-160 and 164-169 turn a non-numeric snapshot counter into NaN, not 0, and the daily chart of src/app/dashboard/page.tsx:822 and 858-860 reads a field an entry lacks as undefined (a gap in the line), where `Dashboard.MetricOf` and `Dashboard.AlignedValue` give 0.
- Dashboard.SumSeries: a null element of the masked `total` makes the page's `sumSeries` throw, and the surrounding `catch` then drops the whole update; the model reads every non-object element, null included, as zero counters. `Dashboard.HeaderTotals` inherits this.
- Dashboard.MaskResponse: a group whose platform array is null rather than missing makes `zeroBefore` throw in the source (its default replaces only a missing array); the model's groups have no null arrays.
- Employees.ListEmployees: a null `full_name` is the empty string, and the employee-account query is a boolean input saying whether it returned a row.
- Recompute.RecomputeMetrics: the current time and today's date are parameters.
