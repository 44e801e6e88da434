# trailshare track statistics, dashboard and rewards — a Dafny model

The Cloud Functions of trailshare (`functions/index.js`) compute, for a hiking,
running or cycling track, everything the app shows about it. This project
models their computational core and proves what it guarantees:

- **`calculateTrackStats`** (modules `Smoothing`, `Elevation`, `Rates`,
  `TrackStats`, `TrackStatsProperties`). It takes the projected points of a
  track `[x, y, altitude?, speed?]`, smooths the altitudes with a centred
  5-point window, and walks the segments once. The walk accumulates distance,
  elevation gain and loss (with a ±0.1 m dead band), altitude extremes, moving
  time and a capped maximum speed. It also closes 1000 m splits and samples an
  elevation chart and a speed chart. A trailing partial split and the average
  rates are added at the end. The pass is a spec function `Walk(c, k)`, the
  state after `k` segments. The method `CalculateTrackStats` updates the same
  variables in its loop and is proved to return `TrackStatsOf`. The properties
  are proved about `Walk` and `TrackStatsOf`.
- **The activity tables** (`Activities`): the activity → group map, where
  unknown activities count as trekking, and the per-activity speed ceiling.
- **`getWeekKey`** (`Calendar`): the ISO 8601 week-date rule of section 4.1.4
  of ISO 8601:2004, over proleptic Gregorian civil dates counted in days from
  1970-01-01.
- **The dashboard** (`Records`, `Dashboard`, `DashboardProperties`).
  `getProfileDashboardStats` folds a user's track documents into totals, the
  longest/highest/longest-lasting records, per-type counts, and day, ISO-week
  and month buckets split by group.
- **XP, challenges and completion** (`Rewards`):
  - the XP `onTrackCreate` awards;
  - the progress a challenge receives from a track;
  - the "became complete" test of `onTrackUpdate`.
- **The weekly leaderboard** (`Leaderboard`): the per-member week totals of
  `calculateWeeklyLeaderboards`, one row per member of the social circle, and
  the XP-then-distance ordering.

Numbers are exact `real`s. A field that may be `undefined` is an `Option`. The
`-Infinity`/`Infinity` start values of the altitude extremes are `None`.
Segment lengths are an input `segLen`; `EuclideanLengths` ties them to the
points by `segLen[i] >= 0` and `segLen[i]² = dx² + dy²`.

Where the code and its prose description disagree, the model follows the code:

- A 3-point track of 500 m + 600 m gives ONE split of 1100 m, not 1000 m + 100 m.
  A split is closed at the first point at or past the boundary and measured
  from the previous boundary point. `ExampleTrack` proves the whole summary of
  that track.
- The charts hold up to n − 1 points, not about 101. The sampling step is
  `max(1, ⌊n/100⌋)`, and every multiple of the step is plotted, plus the last
  point (`TrackCharts`). With 199 points the step is 1, so all 198 segment
  end points are plotted.
- The split distances add up to the total when the trailing split is
  emitted, or when nothing lies past the last boundary point. Otherwise they
  fall short by at most 1 m (`TrailingSplitsProperties`, `TrackSplitTiles`).
- A point without an altitude counts as altitude 0 in the maximum and the
  minimum, not only in the smoothing (`RawAltitudes`).

## Model

| member | source | states |
|---|---|---|
| Activities.ParseGroup | functions/index.js:210-216 | a challenge's activity text names a group exactly when it is `trekking`, `bike` or `run`, and that group's name is the text |
| Activities.ParseGroupName | functions/index.js:23-27 | every group's stored name reads back as that group |
| Activities.GroupOf | functions/index.js:23-27 | run exactly for `trail-running`/`corsa`; bike exactly for `bike`/`mtb`/`ebike`; any activity outside the table is trekking |
| Activities.TrackGroup | functions/index.js:211 | a track without an activity type is trekking; otherwise its type's group |
| Activities.MaxSpeedCeiling | functions/index.js:814-818 | the ceiling is positive and at most 33 m/s; an activity outside the table gets the 25 m/s default; trekking activities other than ski touring stay at or below it |
| Smoothing.WindowBounds | functions/index.js:824-826 | the clipped window around i lies inside the list and contains i |
| Smoothing.Smoothed | functions/index.js:820-831 | the smoothed list has the length of the input |
| Smoothing.SmoothAltitudes | functions/index.js:820-831 | window ≤ 1 returns the input unchanged; otherwise element i is the mean of the input over `[max(0, i−⌊w/2⌋), min(n, i+⌈w/2⌉))` |
| Smoothing.SumBounds | functions/index.js:827 | a sum of n values in [lo, hi] lies in [n·lo, n·hi] |
| Smoothing.MeanBounds | functions/index.js:827 | the mean of a non-empty slice lies between the bounds of its values |
| Smoothing.SmoothedWithin | functions/index.js:820-831 | smoothing never leaves the range of the input altitudes |
| Smoothing.SmoothedConstant | functions/index.js:820-831 | a constant altitude profile is left unchanged |
| Smoothing.SumCons | functions/index.js:827 | the sum of a list is its first value plus the sum of the rest |
| Smoothing.SumReverse | functions/index.js:827 | the sum does not depend on the order of the slice |
| Smoothing.ReverseSlice | functions/index.js:826 | a slice of the reversed list is the reverse of the mirrored slice |
| Smoothing.SliceMean | functions/index.js:827 | the left-to-right `reduce` over a non-empty slice divided by its length is the slice's mean |
| Smoothing.SmoothedPoint | functions/index.js:824-828 | one loop iteration computes exactly element i of the smoothed list |
| Smoothing.SmoothedAt | functions/index.js:824-827 | element i of the smoothed list is the mean over its clipped window, which is non-empty and inside the list |
| Smoothing.MirroredWindow | functions/index.js:824-825 | for an odd window, the window of i read from the far end is the window of n−1−i |
| Smoothing.MeanReverse | functions/index.js:827 | the mean of a slice does not depend on its order |
| Smoothing.ReversedWindowMean | functions/index.js:824-827 | the reversed list's window around i has the same mean as the list's window around n−1−i |
| Smoothing.SmoothedReverseAt | functions/index.js:824-827 | element i of the smoothed reversed list is element n−1−i of the smoothed list |
| Smoothing.SmoothedReverse | functions/index.js:820-831 | smoothing commutes with reversing the track |
| Elevation.GainStep | functions/index.js:879-880 | (no contract) what one smoothed change adds to the gain; `StepRules` states its properties |
| Elevation.LossStep | functions/index.js:879-881 | (no contract) what one smoothed change adds to the loss; `StepRules` states its properties |
| Elevation.StepRules | functions/index.js:879-881 | a change within ±0.1 m adds nothing; beyond it, exactly one of gain and loss grows, by the change's size; a reversed change swaps them |
| Elevation.GainLossMonotone | functions/index.js:879-881 | gain and loss are never negative and never decrease as the track goes on |
| Elevation.NetClimbBound | functions/index.js:879-881 | gain − loss differs from the net altitude change by at most 0.1 m per segment |
| Elevation.FlatHasNoClimb | functions/index.js:879-881 | a flat profile has no gain and no loss |
| Elevation.ClimbCons | functions/index.js:879-881 | the first segment's step plus the rest's climb is the whole climb |
| Elevation.ReverseSwapsGainAndLoss | functions/index.js:879-881 | walking the profile backwards swaps gain and loss |
| Rates.AvgSpeed | functions/index.js:937 | 0 without time; otherwise speed × seconds = metres × 3.6 (km/h), non-negative for a non-negative distance |
| Rates.AvgPace | functions/index.js:938 | 0 unless both distance and time are positive; otherwise positive minutes per km |
| Rates.Vam | functions/index.js:941-942 | 0 without time; otherwise metres climbed per hour |
| Rates.SpeedTimesPace | functions/index.js:937-938 | with distance and time positive, km/h × min/km = 60 |
| Rates.TenKilometresInAnHour | functions/index.js:934-938 | 10 km in 3 600 000 ms is 10 km/h and 6 min/km |
| TrackStats.RawAltitudes | functions/index.js:833 | one altitude per point, 0 for a point without one |
| TrackStats.Speeds | functions/index.js:861 | one speed per point, 0 for a point without one |
| TrackStats.ContextOf | functions/index.js:813-849 | the inputs of the pass (lengths, speeds, raw and smoothed altitudes, ceiling, sampling step) are consistent |
| TrackStats.AddSegment | functions/index.js:858-881 | one segment's updates of distance, moving time, split time, maximum speed, altitude extremes, gain and loss |
| TrackStats.CloseSplitIfDue | functions/index.js:884-904 | the split logic of one point: the split pushed, the boundary advanced by 1000 m and the per-split counters reset |
| TrackStats.AddTrailingSplit | functions/index.js:919-932 | the trailing partial split, emitted only beyond 1 m, with the fallback duration |
| TrackStats.Walk | functions/index.js:851-914 | (no contract) the pass's state after k segments; `WalkTotals`, `WalkSplits`, `WalkTiles`, `WalkChartPoints` and the other `Walk…` lemmas state its properties |
| TrackStats.VisitPoint | functions/index.js:851-913 | one loop iteration takes the pass from `Walk(c, i−1)` to `Walk(c, i)` |
| TrackStats.WalkPoints | functions/index.js:851-914 | the loop ends in the state `Walk(c, n−1)` after all segments |
| TrackStats.TrackStatsOf | functions/index.js:802-961 | (no contract) the summary of a track with at least 2 points; `TrackTotals`, `TrackSplits`, `TrackSplitTiles`, `TrackCharts` and `TrackRates` state its properties |
| TrackStats.CalculateTrackStats | functions/index.js:802-961 | fewer than 2 points give all-zero stats, empty charts and no splits; otherwise the result is `TrackStatsOf` |
| TrackStatsProperties.WalkTotals | functions/index.js:858-881 | after k segments: distance = the sum of their lengths, and gain/loss = the climb of the first k+1 smoothed altitudes |
| TrackStatsProperties.SumNonNegative | functions/index.js:859 | a sum of non-negative lengths is non-negative |
| TrackStatsProperties.DistanceMonotone | functions/index.js:859 | the running distance never decreases |
| TrackStatsProperties.MovingDeltaBounds | functions/index.js:861-870 | a segment adds between 0 and length/0.22 seconds of moving time |
| TrackStatsProperties.WalkMoving | functions/index.js:861-870 | moving time is the sum over segments whose end speed exceeds 0.22 m/s, and lies in [0, distance/0.22] |
| TrackStatsProperties.WalkMaxSpeed | functions/index.js:872-874 | the maximum speed is ≥ 0, at least every point speed below the ceiling, and either 0 or one of those speeds |
| TrackStatsProperties.MaxAltitudeStep | functions/index.js:876-877 | each segment updates the extremes with its end point's altitude only |
| TrackStatsProperties.WalkMaxAltitude | functions/index.js:876 | no maximum before a segment; afterwards it is one of the altitudes of points 1..k and bounds all of them (point 0 is never looked at) |
| TrackStatsProperties.WalkMinAltitude | functions/index.js:877 | the same for the minimum |
| TrackStatsProperties.SplitInvariantStart | functions/index.js:841-846 | the split bookkeeping invariant holds before the first segment |
| TrackStatsProperties.AppendSplit | functions/index.js:892-897 | pushing a split adds its distance, gain and duration to the sums |
| TrackStats.SplitDurationMs | functions/index.js:886-890 | (no contract) a split's duration in ms: its moving seconds × 1000, or distance × 0.9 × 1000 when those are under 1 s and no duration was recorded |
| TrackStatsProperties.SplitDurationRule | functions/index.js:886-890 | the duration is ≥ 0; with no recorded duration it is at least 1000 ms or exactly the 0.9 s/m estimate |
| TrackStatsProperties.AccumulateKeepsSplits | functions/index.js:858-881 | a segment's accumulation keeps the split invariant |
| TrackStatsProperties.SplitPartKeepsSplits | functions/index.js:884-904 | closing a split keeps it: numbering 1, 2, …, boundary = 1000 × (splits + 1), split sums equal the totals at the last boundary |
| TrackStatsProperties.WalkSplits | functions/index.js:851-914 | the split invariant holds after every segment |
| TrackStatsProperties.SplitPartLeavesShortRemainder | functions/index.js:884-904 | after the split logic, less than 1000 m lies past the last boundary point |
| TrackStatsProperties.WalkShortRemainder | functions/index.js:884-904 | after every segment the distance since the last boundary point is in [0, 1000) |
| TrackStatsProperties.TrailingSplitsProperties | functions/index.js:919-932 | the trailing split is emitted exactly beyond 1 m and then makes the split sums equal the totals; otherwise they fall short by at most 1 m |
| TrackStatsProperties.WalkCharts | functions/index.js:907-913 | the two charts share their labels, have one value per label, labels never decrease, and a sampled point's label is the distance so far in km |
| TrackStatsProperties.ChartStep | functions/index.js:907-913 | a point appends to the charts exactly when it is sampled |
| TrackStatsProperties.TilesExtend | functions/index.js:884-901 | a split covering the segments from the last mark to a later point extends a tiling of the pass |
| TrackStatsProperties.SplitStep | functions/index.js:858-901 | one segment adds its length, moving time and gain; at or past the target the split pushed has the distance, gain and duration (of the open split's moving time plus this segment's) since the last boundary point, and the counters restart there; otherwise the open split only grows |
| TrackStatsProperties.TiledAfterClose | functions/index.js:884-901 | closing a split at point k keeps the tiling and starts the open split at point k |
| TrackStatsProperties.TiledAfterOpen | functions/index.js:884-901 | a segment that closes no split keeps the tiling and the open split's start |
| TrackStatsProperties.WalkTiles | functions/index.js:851-914 | after every segment the closed splits tile the pass from point 0 up to the last boundary point: split j has the distance and climb the pass added between two boundary points, and the duration of the moving time added there; the open split counts from the last boundary point |
| TrackStatsProperties.TilesPrefix | functions/index.js:892-897 | the splits before the last one still tile the pass up to the previous boundary point |
| TrackStatsProperties.TilesSums | functions/index.js:892-897 | the distances and climbs of tiling splits add up to the state at their last boundary point; with a recorded duration their durations add up to the moving time there × 1000 |
| TrackStatsProperties.TrailingSplitTiles | functions/index.js:919-932 | an emitted trailing split extends the tiling to the last point, so the sums of distance and climb are the totals |
| TrackStatsProperties.NoTrailingSplitTiles | functions/index.js:919-932 | without a trailing split the tiling ends at most 1 m before the last point, with sums equal to the state at that boundary point |
| TrackStatsProperties.FinishTiles | functions/index.js:851-932 | the finished split list tiles the pass up to the last point, or to a point less than 1 m before the end |
| TrackStatsProperties.TrackSplitTiles | functions/index.js:884-932 | the returned splits tile the track: each split's distance, climb and duration are what the pass added between two boundary points (duration: the moving time there, or the 0.9 s/m estimate); Σ distance and Σ climb are the state at the last boundary point, which is the last point or less than 1 m before the end |
| TrackStatsProperties.SampledIndicesOrder | functions/index.js:907 | the reference list of plotted points is ascending, holds only sampled points among 1..k, and holds every one of them |
| TrackStatsProperties.SampledCount | functions/index.js:849-907 | the number of plotted points is ⌊k/step⌋, plus 1 for the last point when it is not a multiple of the step |
| TrackStatsProperties.WalkChartPoints | functions/index.js:907-913 | chart entry j is the j-th plotted point: label = distance there / 1000, elevation = its smoothed altitude, speed = its recorded speed × 3.6 |
| TrackStatsProperties.ContextLengths | functions/index.js:855-858 | Euclidean segment lengths are non-negative |
| TrackStatsProperties.TrackTotals | functions/index.js:916-951 | distance = Σ lengths ≥ 0; gain/loss = the climb of the smoothed profile, both ≥ 0; duration as given; 0 ≤ moving time ≤ distance/0.22 s |
| TrackStatsProperties.TrackMaxSpeed | functions/index.js:954 | the reported maximum is 3.6 × a point speed strictly below the activity's ceiling, or 0, and no such speed exceeds it |
| TrackStatsProperties.TrackAltitudes | functions/index.js:946-947 | every altitude of points 1..n−1 lies between the reported minimum and maximum, and both are attained |
| TrackStatsProperties.TrackSplits | functions/index.js:884-932 | splits numbered 1, 2, … with non-negative distance and climb and the duration rule; Σ distances within 1 m below the total; Σ gains ≤ gain; with a recorded duration Σ durations ≤ moving time; every closed split ends past its boundary |
| TrackStatsProperties.TrackCharts | functions/index.js:907-913 | entry j of both charts is the j-th plotted point, in ascending order: the multiples of the step and the last point, ⌊(n−1)/step⌋ (+1) of them; label = km so far, elevation = smoothed altitude, speed = point speed × 3.6; labels are shared, non-decreasing and end at the total km |
| TrackStatsProperties.StatsRates | functions/index.js:934-958 | the aggregated rates agree with distance, climb and the two durations, each guarded against division by zero |
| TrackStatsProperties.TrackRates | functions/index.js:934-958 | the same for every track, including the under-2-points result |
| TrackStatsProperties.FlatTrack | functions/index.js:876-881 | a track at constant altitude reports no gain, no loss, and that altitude as both extremes |
| TrackStatsProperties.TrackNetClimb | functions/index.js:879-881 | reported gain − loss is within 0.1 m per segment of the smoothed end-to-start difference |
| TrackStatsProperties.ReversedLengths | functions/index.js:855-858 | the reversed track has the reversed segment lengths |
| TrackStatsProperties.ReversedTrack | functions/index.js:802-961 | walking the track backwards gives the same distance and swaps gain and loss |
| TrackStatsProperties.ExampleSmoothing | functions/index.js:820-834 | altitudes 100, 105, 95 smooth to 100, 100, 100 |
| TrackStatsProperties.ExampleContextOf | functions/index.js:813-849 | the example's pass inputs |
| TrackStatsProperties.ExampleFirstSegment | functions/index.js:851-914 | after 500 m: no split yet, one chart point at 0.5 km |
| TrackStatsProperties.ExampleSecondSegment | functions/index.js:851-914 | after 1100 m: one split of 1100 m lasting its 550 moving seconds |
| TrackStatsProperties.ExampleLengthsAreEuclidean | functions/index.js:855-858 | 500 and 600 are the example's segment lengths |
| TrackStatsProperties.ExampleFinish | functions/index.js:916-960 | no trailing split (nothing lies past the boundary point); with no recorded duration only the moving rates are non-zero: 7.2 km/h and 25/3 min/km |
| TrackStatsProperties.ExampleTrack | functions/index.js:802-961 | the whole summary of the 3-point example |
| Calendar.UtcDay | functions/index.js:31 | the weekday is in 0..6 |
| Calendar.IsoDay | functions/index.js:31 | `getUTCDay() \|\| 7` is in 1..7 |
| Calendar.YearLength | functions/index.js:32 | consecutive years start 365 or 366 days apart |
| Calendar.YearStartMonotone | functions/index.js:32 | later years start later |
| Calendar.MonthsTileYear | functions/index.js:30 | each month starts where the previous one ends, and December ends the year |
| Calendar.EpochDayInYear | functions/index.js:30 | a valid date falls inside its own year |
| Calendar.NextDay | functions/index.js:30 | the next day of the month is the next day number |
| Calendar.ThursdayIsThursday | functions/index.js:31 | the shifted day is the Thursday of the date's Monday-to-Sunday week |
| Calendar.SameWeekSameThursday | functions/index.js:31 | all days of one ISO week shift to the same Thursday |
| Calendar.GetWeekKey | functions/index.js:29-35 | the key's year holds the week's Thursday and is within one of the date's year; the week is in 1..53 and counts 7-day blocks from 1 January |
| Calendar.WeekKeyFacts | functions/index.js:32-33 | the ceiling division gives the number of the 7-day block holding the Thursday |
| Calendar.SameWeekSameKey | functions/index.js:29-35 | two dates of the same ISO week get the same key |
| Calendar.FourthOfJanuaryIsWeekOne | functions/index.js:29-35 | 4 January is always in week 1 of its own year |
| Calendar.ThursdayStep | functions/index.js:31 | seven days later, the week's Thursday is seven days later |
| Calendar.WeekOfOffset | functions/index.js:33 | `ceil((x + 1) / 7)` is the number of the seven-day block that holds day x of the year |
| Calendar.OneWeekHoldsEachDay | functions/index.js:32-33 | no two different week keys hold the same day |
| Calendar.KeysSevenDaysApart | functions/index.js:32-33 | Thursdays seven days apart fall in consecutive weeks: the next week of the year, or week 1 of the next |
| Calendar.NextWeek | functions/index.js:29-35 | seven days later is the next week of the year, or week 1 of the next year |
| Calendar.KnownWeekKeys | functions/index.js:29-35 | 1 January 1970 is a Thursday; 29 December 1969 is in week 1 of 1970 and 1 January 1971 in week 53 of 1970 |
| Calendar.EpochDay | functions/index.js:30 | (no contract) the day number of a civil date counted from 1970-01-01, as `Date.UTC` computes it; `EpochDayInYear`, `MonthsTileYear` and `NextDay` state its properties |
| Calendar.YearStart | functions/index.js:32 | (no contract) the day number of 1 January of a year; `YearLength` and `YearStartMonotone` state its properties |
| Records.ActivityTypeOf | functions/index.js:93 | a missing or empty type is `trekking`; any other type is kept |
| Records.GroupOfTrack | functions/index.js:109 | the group is the same whether the missing type is defaulted before or after the lookup |
| Records.ActivityDate | functions/index.js:97-106 | `recordedAt` when present (no date if it does not parse), otherwise `createdAt` |
| Rewards.JsRound | functions/index.js:169 | `Math.round` gives the integer within half a unit, halves rounded up |
| Rewards.JsRoundMonotone | functions/index.js:169-172 | rounding preserves order |
| Rewards.TrackXp | functions/index.js:166-176 | (no contract) 25 XP, plus the rounded km × 10 and the rounded climb / 100 × 20 when present, plus 50 when public; `XpNearExact`, `XpAtLeastBase` and `XpMonotone` state its properties |
| Rewards.XpAward | functions/index.js:166-185 | only a positive XP total is added to the profile, and then all of it |
| Rewards.XpCountsMissingAsZero | functions/index.js:168-173 | the truthiness tests make a missing or zero figure contribute nothing |
| Rewards.XpNearExact | functions/index.js:166-176 | the XP is within 1 of 25 + metres/100 + climb/5 (+ 50 when public) |
| Rewards.XpAtLeastBase | functions/index.js:166-176 | a track without negative figures earns at least 25 XP (75 when public), and all of it is awarded |
| Rewards.XpMonotone | functions/index.js:166-176 | a longer or higher track never earns less |
| Rewards.ChallengeIncrement | functions/index.js:205-235 | progress is added exactly when the challenge has not ended, any group restriction matches, the type is a total type and the figure is positive; the amount is the climb or the distance |
| Rewards.NonGroupRestrictionNeverCounts | functions/index.js:210-216 | a challenge restricted to something that is not a group name never counts a track |
| Rewards.UnrestrictedIgnoresActivity | functions/index.js:210 | an unrestricted challenge ignores the track's activity |
| Rewards.ExpiredOrOtherTypeNeverCounts | functions/index.js:219-228 | an ended challenge, or one of another type, is never updated |
| Rewards.BecameComplete | functions/index.js:251-254 | the update fires exactly when the track now has a positive distance and is not pending, and before had no distance, a zero distance or was pending |
| Rewards.CompletionTriggersOnce | functions/index.js:249-257 | once a track has become complete no later update fires again, and an unchanged track never fires |
| Dashboard.AggregateInto | functions/index.js:116-127 | `aggregate` creates a missing bucket, then adds the km and the climb to `all` and to the group's column |
| Dashboard.CountTrack | functions/index.js:86-94 | one document's totals, strictly-greater records and type count |
| Dashboard.FileTrack | functions/index.js:107-131 | a dated document goes into its day, ISO-week and month buckets |
| Dashboard.VisitTrack | functions/index.js:80-136 | the body of the `forEach` for one document |
| Dashboard.Fold | functions/index.js:80-136 | (no contract) the documents folded in order, one `VisitTrack` each; `FoldTotals`, `FoldRecords`, `FoldTypeCounts`, `FoldBalanced` and `FoldSlot` state its properties |
| Dashboard.GetProfileDashboardStats | functions/index.js:58-148 | the loop over the documents returns `DashboardOf`, with `totalTracks` the number of documents |
| DashboardProperties.SumSnoc | functions/index.js:86-88 | a further document adds its figure to the reference sum |
| DashboardProperties.StepFigures | functions/index.js:86-91 | each document adds its figure to the total and competes for the record |
| DashboardProperties.FoldTotals | functions/index.js:86-88 | totals are the sums of the documents' figures, missing counted as 0 |
| DashboardProperties.DashboardTotals | functions/index.js:86-88 | the same for the returned stats |
| DashboardProperties.ImproveKeepsRecord | functions/index.js:89-91 | a strictly-greater replacement keeps the record the first largest figure |
| DashboardProperties.FoldRecords | functions/index.js:89-91 | each record is ≥ 0 and ≥ every figure; it is the placeholder or the first document holding the largest positive figure |
| DashboardProperties.DashboardRecords | functions/index.js:60-62 | the same for the returned stats |
| DashboardProperties.FoldTypeCounts | functions/index.js:93-94 | the counts are keyed exactly by the types seen, each with its number of documents |
| DashboardProperties.DashboardTypeCounts | functions/index.js:93-94 | the same for the returned stats |
| DashboardProperties.AggregateKeepsBalance | functions/index.js:116-127 | `aggregate` keeps `all = trekking + bike + run` in every bucket and adds only the given key |
| DashboardProperties.FileUnderKeepsBalance | functions/index.js:129-131 | the three aggregations keep every bucket balanced |
| DashboardProperties.FiledKeepsBalance | functions/index.js:97-131 | filing a document keeps every bucket balanced |
| DashboardProperties.FoldBalanced | functions/index.js:80-136 | in every day, week and month bucket `all = trekking + bike + run`, for distance and elevation |
| DashboardProperties.DashboardBuckets | functions/index.js:97-131 | in the returned stats every bucket is balanced, and there is a day bucket exactly for the date of each dated document |
| DashboardProperties.FiledSlot | functions/index.js:116-131 | filing a document changes exactly the day, week and month buckets it falls in, creating a missing one and adding its km and climb to the total and its group |
| DashboardProperties.SlotSumSnoc | functions/index.js:111-127 | one more document adds its measure to a slot's reference sum exactly when it falls in the slot and the group |
| DashboardProperties.SlotBucketSnoc | functions/index.js:111-127 | one more document adds its km and climb to the total and its group's column of the reference bucket of every slot it falls in |
| DashboardProperties.EmptySlot | functions/index.js:116-122 | a slot no document falls in has an all-zero reference bucket |
| DashboardProperties.FoldSlot | functions/index.js:80-136 | the fold holds a bucket for a slot exactly when some dated document falls in it, and then per column the sum of those documents' km (climb), in total and per group |
| DashboardProperties.DashboardSlots | functions/index.js:97-131 | the returned day, week and month buckets: keyed exactly by the days, ISO weeks and months of the dated documents, each holding the sums of km and climb of its documents per group and in total |
| DashboardProperties.EmptyDashboard | functions/index.js:71-78 | no documents give zero totals, the placeholder records and no buckets |
| Leaderboard.WeekTotals | functions/index.js:477-486 | (no contract) a week's distance, climb and XP summed over its tracks, each track at its `onTrackCreate` XP; `SumWeek`, `WeekTotalsAppend` and `WeekTotalsBounds` state its properties |
| Leaderboard.SumWeek | functions/index.js:477-486 | the inner loop returns the week's totals |
| Leaderboard.WeekTotalsAppend | functions/index.js:477-486 | the totals of two runs of tracks add up |
| Leaderboard.WeekTotalsBounds | functions/index.js:477-486 | without negative figures the totals are ≥ 0 and the XP is at least 25 per track |
| Leaderboard.TrackXpAsWritten | functions/index.js:482-485 | (no contract) one track's weekly XP as written, `None` where `Math.round` of a missing figure gives `NaN`; `TrackXpAsWrittenAgrees` states its properties |
| Leaderboard.WeekXpAsWritten | functions/index.js:477-486 | (no contract) the week's XP as written, `None` once any track gives `NaN`; `WeekXpAsWrittenAgrees` and `PendingTrackSpoilsWeek` state its properties |
| Leaderboard.TrackXpAsWrittenAgrees | functions/index.js:482-485 | the weekly XP as written is a number exactly when distance and climb are present, and then equals the `onTrackCreate` XP |
| Leaderboard.WeekXpAsWrittenAgrees | functions/index.js:477-486 | the week's XP as written is a number exactly when every track has both figures, and then equals the corrected sum |
| Leaderboard.PendingTrackSpoilsWeek | functions/index.js:483-484 | one pending track without figures turns the week's XP into `NaN` |
| Leaderboard.CollectWeeklyStats | functions/index.js:474-491 | the `forEach` over the members' results fills `weeklyStats` |
| Leaderboard.StatsOfMembers | functions/index.js:474-491 | with no repeated member, a member has stats exactly when their query found tracks, and they are their week's totals |
| Leaderboard.Standings | functions/index.js:494-503 | one row per member, in circle order, with the member's stats or the zero default |
| Leaderboard.RowsAreOwnWeeks | functions/index.js:495 | the zero default equals an empty week's totals, so each row holds the member's own week |
| Leaderboard.Compare | functions/index.js:504 | the comparator is negative exactly when the first entry has more XP, or equal XP and more distance; 0 exactly on a tie of both |
| Leaderboard.CompareAntisymmetric | functions/index.js:504 | swapping the entries negates the comparator |
| Leaderboard.RanksFirstPreorder | functions/index.js:504 | the order is total and transitive |
| Leaderboard.Insert | functions/index.js:504 | inserting into a ranked list gives a ranked list with the entry added |
| Leaderboard.LeadsAll | functions/index.js:504 | the head of a ranked list ranks first against the rest after an insertion behind it |
| Leaderboard.Rank | functions/index.js:504 | the sorted rows are ranked and a permutation of the input |
| Leaderboard.RankKeepsRows | functions/index.js:504 | sorting keeps every row and its length |
| Leaderboard.WeeklyLeaderboard | functions/index.js:466-504 | one ranked row per member of following + user; with no repeated member every member appears with their own week |
| Leaderboard.LeaderHasMostXp | functions/index.js:504 | the first row has the most XP |

## Findings

| source | as written | input that shows it | evidently intended | confidence | as-written member | corrected member |
|---|---|---|---|---|---|---|
| functions/index.js:483-484 | the weekly XP rounds `distance / 1000` and `elevationGain / 100` without `\|\| 0`, so a track missing either field adds `NaN` and the member's whole weekly XP becomes `NaN` | a week with a finished track (5000 m, 300 m, public) and a pending track with neither field: `NaN` instead of 210 | count a missing figure as 0, as lines 480-481 do for the distance and climb totals and lines 168-173 do for the XP award | not executed | Leaderboard.PendingTrackSpoilsWeek | Leaderboard.SumWeek |

`TrackXpAsWritten` and `WeekXpAsWritten` model the sum as written, with `None`
for `NaN`. `WeekXpAsWrittenAgrees` proves that it is a number exactly when
every track has both figures, and that it then equals the corrected sum. The
rest of the model uses the corrected sum `WeekTotals`, which counts each track
at its `onTrackCreate` XP.

## Left out

- Firestore reads and writes, triggers, callables, the scheduled job, transactions and batch commits are I/O. The model takes the documents as lists and returns the values that would be written.
- FCM notifications, `orsProxy`, `backfillUserEmails` and the GPX parsing and projection of `processGpxUpload` are external services or foreign library code.
- `LineString.getLength()` is a foreign call. The segment lengths are an input, constrained by `EuclideanLengths`.
- Floating point: all arithmetic is exact `real`, so IEEE rounding, `NaN` and overflow are not modelled. The exception is the weekly XP finding, where `NaN` is modelled as `None`.
- `toFixed(1)` formatting of chart labels and values: the charts hold the unformatted numbers.
- `originalPointMapping` of the elevation chart is always left empty by the source, so it is not modelled.
- `points[i].length > 2` / `> 3` are modelled as an optional altitude and speed. A `null` altitude or speed is not distinguished from a missing one.
- `TrackStats.CalculateTrackStats`: a missing `points` argument is not modelled, only lists with fewer than 2 points.
- Time zones and locale: the dashboard reads a date's day, week and month in UTC. `toISOString`, `getFullYear`/`getMonth` and `getWeekKey`'s local-date read are not distinguished, and `Date.UTC`'s mapping of years 0–99 to 1900–1999 is not modelled.
- The zero-padded text of the week, day and month keys: keys are a year-week pair, a civil date and a year-month pair.
- Dashboard: a document whose data is null is skipped by the source. The try/catch around a document is not modelled: the model has no failing reads. `totalTracks` is the number of documents given.
- Dashboard, challenges and the speed ceiling: object-prototype keys (`activityGroupMap["constructor"]`, `MAX_SPEED_FILTER_MPS["constructor"]` at functions/index.js:818) are not modelled. The tables are exact string lookups, so such a key gets the default group or the 25 m/s default ceiling.
- `Rewards.ChallengeIncrement`: the challenge's end date and the current time are integers (ms) passed in; reading the clock is left out.
- `Leaderboard.Rank`: the stability of `Array.prototype.sort` is not modelled. The sort is an insertion sort proved to give a ranked permutation.
- `Leaderboard.WeeklyLeaderboard`: usernames and avatars read from the profiles are left out, and so is the crash when a member has no profile.
- `Leaderboard.StatsOfMembers` and `Leaderboard.WeeklyLeaderboard` state a member's own totals only for a circle without repeated members. A repeated member keeps the later result in `weeklyStats`.
- Which tracks fall in the week (the `createdAt` query against the clock) is left out: each member's week of tracks is an input.
