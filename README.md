# Straviz analytics, modelled in Dafny

Straviz is a dashboard for Strava activities. Its frontend turns a flat list
of activity records into chart data through three TypeScript utility modules.
This project models those modules and proves what they promise.

- `routeAnalysis.ts` classifies every activity as a new or a repeated route.
  It walks a chronologically sorted copy of the list, keeping an ordered list
  of visited areas. Each area is a route center with a visit counter. The
  same file finds the longest activity, folds all decoded points into map
  bounds, and picks route styles.
- `statsCalculations.ts` builds the cumulative distance series, the pace
  series of runs, the time-of-day breakdown, the new-versus-repeated bars
  per month, and the personalised summary.
- `chartDataProcessors.ts` defines the activity record. It builds the
  activity-type breakdown, the monthly volume, the cumulative elevation
  series, the scatter points and the per-day heatmap counts.

Modules:

| file | module | what it holds |
|---|---|---|
| `numbers.dfy` | `Numbers` | `Math.round`, rounding to tenths, `toFixed`, sums of sequences |
| `strava.dfy` | `Strava` | the activity record, the chronological sort (sorted, a permutation, stable), running totals and the twelve month buckets |
| `tally.dfy` | `Tally` | the `record[k] = (record[k] \|\| 0) + 1` counting idiom |
| `route_analysis.dfy` | `RouteAnalysis` | `routeAnalysis.ts` |
| `chart_data_processors.dfy` | `ChartDataProcessors` | `chartDataProcessors.ts` |
| `stats_calculations.dfy` | `StatsCalculations` | `statsCalculations.ts` |

The model takes the source's own form:

- The `forEach` loops are methods with loops and invariants. Each is proved
  equal to a specification function or characterised by a predicate, and
  the properties are lemmas about that function or predicate.
- `analyzeRouteFrequency` keeps `visitedAreas` as a sequence and the result
  `Map` as a `map`. Its loop invariant says the state equals the fold `Run`
  over the prefix processed so far.
- The `monthlyData` buffers of `groupActivitiesByMonth` and
  `analyzeNewVsRepeatedByMonth` are arrays updated in place, as is the
  summary's `monthCounts`.
- The `reduce`, `filter` and `map` expressions are functions.
- Some loops and callbacks are methods of their own. `FoldPoints` is the
  `decoded.forEach` of `calculateMapBounds`. `ClassifyActivity` is the
  callback of `analyzeRouteFrequency`'s `forEach`. `SplitByMonth` is the
  `forEach` of `analyzeNewVsRepeatedByMonth`. `CountByMonth` is the
  `monthCounts` loop of `generatePersonalizedSummary`.

Numbers are exact reals. `Math.round(x)` is `floor(x + 0.5)`.
`Math.round(x * 10) / 10` is `RoundTo1`. `parseFloat(x.toFixed(d))` rounds
the magnitude half up and restores the sign, so ties go away from zero;
`Numbers.HalvesDiffer` shows the two rules part at -0.25.

## Model

| member | source | states |
|---|---|---|
| Numbers.Round | frontend/utils/chartDataProcessors.ts:72 | `Math.round` lands within half a unit of its argument |
| Numbers.RoundTo1 | frontend/utils/chartDataProcessors.ts:54 | rounding to tenths lands within 0.05 of its argument, on a multiple of 0.1 |
| Numbers.RoundTo1Monotone | frontend/utils/statsCalculations.ts:55 | rounding to tenths preserves order |
| Numbers.FixedDigits | frontend/utils/chartDataProcessors.ts:84-86 | the digits `toFixed(d)` prints, as one integer: the integer nearest to x·10^d, a tie going away from zero |
| Numbers.ToFixed | frontend/utils/chartDataProcessors.ts:84-86 | `toFixed` with `d` decimals is a whole number of 10^-d steps (those digits), within half a step of its argument, and keeps the sign |
| Numbers.ToFixedIsOdd | frontend/utils/chartDataProcessors.ts:84-86 | `toFixed` is symmetric in the sign, for every argument |
| Numbers.HalvesDiffer | frontend/utils/chartDataProcessors.ts:54 | at -0.25, `Math.round` to tenths gives -0.2 while `toFixed(1)` gives -0.3 |
| Strava.SortByStart | frontend/utils/chartDataProcessors.ts:61-63 | the sorted copy is chronological and a permutation of the input |
| Strava.SortIsStable | frontend/utils/routeAnalysis.ts:63-65 | activities with equal start time keep their input order |
| Strava.SortKeepsMembers | frontend/utils/statsCalculations.ts:41-43 | the sorted copy has exactly the input's activities |
| Strava.SortOfChronological | frontend/utils/routeAnalysis.ts:63-65 | a list already in start order is processed in that order |
| Strava.SortThree | frontend/utils/routeAnalysis.ts:63-65 | three activities listed latest, earliest, middle come back in start order |
| Strava.SortedUnique | frontend/utils/routeAnalysis.ts:63-65 | when start times are all distinct, the chronological order is the only one: any chronological permutation of a strictly increasing list equals it |
| Strava.SortKeepsSum | frontend/utils/chartDataProcessors.ts:61-74 | sorting does not change a total |
| Strava.RunningTotalGrows | frontend/utils/statsCalculations.ts:45-57 | with no negative term, the unrounded running total never decreases |
| Strava.MonthlyCountsAddUp | frontend/utils/statsCalculations.ts:180-184 | the twelve month counters add up to the number of activities |
| Strava.MonthlyKmAddsUp | frontend/utils/chartDataProcessors.ts:44-49 | the twelve monthly km totals add up to the total km |
| Tally.Occurrences | frontend/utils/chartDataProcessors.ts:21-24 | a key is counted at least once exactly when it occurs |
| Tally.FirstAppearance | frontend/utils/chartDataProcessors.ts:26 | `Object.keys` of the record lists each counted key once, and nothing else |
| Tally.TallyCounts | frontend/utils/chartDataProcessors.ts:20-24 | the record's keys are the counted keys; each maps to its number of occurrences, at least 1 |
| Tally.CountOneMore | frontend/utils/chartDataProcessors.ts:23 | one more key raises its count by one, or adds it with count 1 at the end of the key order |
| Tally.TallyAddsUp | frontend/utils/chartDataProcessors.ts:20-29 | the counts, listed in key order, add up to the number of keys counted |
| RouteAnalysis.GetRouteCenter | frontend/utils/routeAnalysis.ts:41-52 | no center exactly for an empty or throwing decode; otherwise the point at index floor(n/2), which is in range |
| RouteAnalysis.FirstNearby | frontend/utils/routeAnalysis.ts:97-99 | the first area strictly closer than 100 m; every earlier area is at least 100 m away; none means all are |
| RouteAnalysis.StepWithoutCenter | frontend/utils/routeAnalysis.ts:71-94 | with no polyline or no center, the activity is new with count 1 and the areas are unchanged |
| RouteAnalysis.StepOnMatch | frontend/utils/routeAnalysis.ts:101-111 | the matched area gains exactly one visit; no other area changes, none is added; the activity is repeated with the new count |
| RouteAnalysis.StepOnNoMatch | frontend/utils/routeAnalysis.ts:112-123 | one area with count 1 is appended at the center, and the activity is new |
| RouteAnalysis.ClassifyActivity | frontend/utils/routeAnalysis.ts:70-124 | one run of the `forEach` callback yields the new area list and the metadata of one step of the pass, whose three cases the lemmas above state |
| RouteAnalysis.RunAreas | frontend/utils/routeAnalysis.ts:68-124 | every area has been visited; there are as many areas as new activities with a center; the visits add up to the activities with a center |
| RouteAnalysis.StepAreas | frontend/utils/routeAnalysis.ts:70-123 | one iteration keeps every area visited, adds an area exactly when the activity has a center and is new, and adds one visit exactly when it has a center |
| RouteAnalysis.StepAreasAt | frontend/utils/routeAnalysis.ts:96-123 | for an activity with a center: one more area exactly when it is new, and exactly one more visit in total |
| RouteAnalysis.RunKeys | frontend/utils/routeAnalysis.ts:68-124 | every processed id has an entry, and only those |
| RouteAnalysis.RunStyled | frontend/utils/routeAnalysis.ts:68-124 | each entry carries its own id and the style of its class; a repeated route has count at least 2 |
| RouteAnalysis.AnalyzeRouteFrequency | frontend/utils/routeAnalysis.ts:58-127 | the loop computes the pass over the chronological copy; every input id gets an entry, styled by its class |
| RouteAnalysis.SameAreaScenario | frontend/utils/routeAnalysis.ts:58-127 | three routes sharing a center are new, then repeated with count 2, then 3, in start order, for every ordering of the three in the input list; one area visited three times remains |
| RouteAnalysis.RouteFrequencyOrderFree | frontend/utils/routeAnalysis.ts:58-127 | when start times are all distinct, every rearrangement of the activity list gives the same classification map and the same visited areas |
| RouteAnalysis.ThresholdIsStrict | frontend/utils/routeAnalysis.ts:97-99 | a center exactly 100 m from an existing area starts a new area |
| RouteAnalysis.LongestIndex | frontend/utils/routeAnalysis.ts:135-137 | the `reduce` keeps the first activity of maximal distance |
| RouteAnalysis.FindLongestRun | frontend/utils/routeAnalysis.ts:132-138 | null exactly for an empty list; otherwise a list element at least as long as every other, with only shorter ones before it |
| RouteAnalysis.ExtendBox | frontend/utils/routeAnalysis.ts:157-160 | widening the smallest box by a point gives the smallest box around the extended points |
| RouteAnalysis.FoldPoints | frontend/utils/routeAnalysis.ts:156-162 | folding a route's points keeps the flag and the smallest box around all points seen |
| RouteAnalysis.CalculateMapBounds | frontend/utils/routeAnalysis.ts:143-171 | null exactly when no activity yields a decoded point; otherwise the smallest box enclosing every decoded point, with min <= max |
| RouteAnalysis.StyleOrdering | frontend/utils/routeAnalysis.ts:176-201 | the longest run is drawn heavier, more opaque and in its own colour; a new route stands out from a repeated one |
| ChartDataProcessors.Entries | frontend/utils/chartDataProcessors.ts:26-29 | one entry per listed key, in order, with its count |
| ChartDataProcessors.EntriesTotal | frontend/utils/chartDataProcessors.ts:26-29 | the entries' values add up to the counts of the listed keys |
| ChartDataProcessors.BreakdownNames | frontend/utils/chartDataProcessors.ts:26-29 | each distinct type is listed once, in order of first appearance, and every type occurring is listed |
| ChartDataProcessors.BreakdownCounts | frontend/utils/chartDataProcessors.ts:20-29 | each value is the type's number of activities, at least 1, and the values add up to the list length |
| ChartDataProcessors.GroupActivitiesByType | frontend/utils/chartDataProcessors.ts:19-30 | one entry per distinct type, by first appearance; each value is that type's count, at least 1; the values add up to the list length |
| ChartDataProcessors.GroupActivitiesByMonth | frontend/utils/chartDataProcessors.ts:33-56 | exactly 12 entries, Jan to Dec; bucket m is the km of month m, summed first and then rounded to tenths |
| ChartDataProcessors.ElevationGrows | frontend/utils/chartDataProcessors.ts:68-74 | with no negative gain the rounded running totals never decrease |
| ChartDataProcessors.ElevationSeriesAt | frontend/utils/chartDataProcessors.ts:65-74 | point i of the series has activity i's date and the rounded gain of activities 0 to i |
| ChartDataProcessors.ElevationSeriesGrows | frontend/utils/chartDataProcessors.ts:68-74 | with no negative gain the series never decreases |
| ChartDataProcessors.ElevationChart | frontend/utils/chartDataProcessors.ts:59-74 | over the chronological copy: one point per activity; non-decreasing without negative gains; the last is the rounded total gain of the unsorted list |
| ChartDataProcessors.CalculateCumulativeElevation | frontend/utils/chartDataProcessors.ts:59-77 | one point per activity in start order, each the rounded running gain; non-decreasing without negative gains; the last is the rounded total |
| ChartDataProcessors.FormatScatterData | frontend/utils/chartDataProcessors.ts:80-90 | an order-preserving map keeping id, name and type; km to two decimals, km/h to one, each within half a last digit |
| ChartDataProcessors.DateKey | frontend/utils/chartDataProcessors.ts:98 | `split('T')[0]` is a prefix with no 'T', and either all of the string or followed by a 'T' |
| ChartDataProcessors.HeatmapKeys | frontend/utils/chartDataProcessors.ts:97-101 | the counted days are exactly the day keys of the activities |
| ChartDataProcessors.FormatHeatmapData | frontend/utils/chartDataProcessors.ts:94-104 | the keys are exactly the activities' day keys; each count is that day's activities, at least 1; the counts add up to the list length |
| StatsCalculations.DistanceGrows | frontend/utils/statsCalculations.ts:48-57 | with no negative distance the rounded running totals never decrease |
| StatsCalculations.DistanceSeriesAt | frontend/utils/statsCalculations.ts:48-57 | point i of the series has activity i's label and the km of activities 0 to i, rounded to tenths |
| StatsCalculations.DistanceSeriesGrows | frontend/utils/statsCalculations.ts:48-57 | with no negative distance the series never decreases |
| StatsCalculations.DistanceChart | frontend/utils/statsCalculations.ts:39-57 | over the chronological copy: one point per activity; non-decreasing without negative distances; the last is the rounded total km of the unsorted list |
| StatsCalculations.CalculateCumulativeDistance | frontend/utils/statsCalculations.ts:39-60 | one point per activity in start order, each the running km rounded to tenths; non-decreasing without negative distances; the last is the rounded total |
| StatsCalculations.RunningActivities | frontend/utils/statsCalculations.ts:67-71 | keeps exactly the runs ('Run' or 'Running') with positive distance and moving time, each as often as in the input |
| StatsCalculations.PaceOf | frontend/utils/statsCalculations.ts:86-94 | the plotted pace is within 0.05 of (moving_time/60)/(distance/1000) |
| StatsCalculations.PaceNonNegative | frontend/utils/statsCalculations.ts:86-94 | an eligible run has a positive exact pace and a non-negative plotted pace |
| StatsCalculations.AnalyzePaceEvolution | frontend/utils/statsCalculations.ts:65-100 | one point per eligible run, in start order, with its date, pace and short month name; no other activity appears |
| StatsCalculations.PeriodOf | frontend/utils/statsCalculations.ts:117-125 | every hour falls in exactly one of [5,12), [12,17), [17,21) and the rest |
| StatsCalculations.PeriodsAddUp | frontend/utils/statsCalculations.ts:113-126 | the four counters add up to the number of activities |
| StatsCalculations.KeepNonZero | frontend/utils/statsCalculations.ts:133 | the filter keeps exactly the rows with a positive value, in their input order (a subsequence), and the total |
| StatsCalculations.KeepNonZeroRanked | frontend/utils/statsCalculations.ts:133 | rows in increasing rank stay in increasing rank after the filter |
| StatsCalculations.NonEmptyRows | frontend/utils/statsCalculations.ts:128-133 | at most four rows in the order morning, afternoon, evening, night, none empty; a period is listed with its count exactly when some activity falls in it; the values add up to the list length |
| StatsCalculations.CategorizeTimeOfDay | frontend/utils/statsCalculations.ts:105-134 | at most 4 rows in fixed order; a period is listed, with its count, exactly when it is non-empty; the values add up to the list length |
| StatsCalculations.TimeOfDayScenario | frontend/utils/statsCalculations.ts:105-134 | hours 6, 14, 22 and 2 give morning 1, afternoon 1, night 2, and no evening row |
| StatsCalculations.MonthlySplit | frontend/utils/statsCalculations.ts:145-165 | twelve bars named Jan to Dec |
| StatsCalculations.BumpBar | frontend/utils/statsCalculations.ts:158-164 | counting an activity keeps its bar's month and raises new plus repeated by exactly one |
| StatsCalculations.SplitByMonth | frontend/utils/statsCalculations.ts:145-165 | the in-place month loop over the array computes the month bars `MonthlySplit` defines |
| StatsCalculations.SplitAddsUp | frontend/utils/statsCalculations.ts:153-165 | when every id has metadata, new plus repeated over all months is the number of activities |
| StatsCalculations.AnalyzeNewVsRepeatedByMonth | frontend/utils/statsCalculations.ts:139-168 | 12 bars Jan to Dec, counting each activity by its id's metadata; new plus repeated add up to the list length |
| StatsCalculations.MaxDistance | frontend/utils/statsCalculations.ts:176 | `Math.max` of the distances is one of them and at least every other |
| StatsCalculations.LongestIsMax | frontend/utils/statsCalculations.ts:176 | the summary's maximum is the distance of `findLongestRun`'s result |
| StatsCalculations.LongestRunKmIsLongest | frontend/utils/statsCalculations.ts:176-199 | `longestRun` is -Infinity exactly for an empty list, else the longest distance in km rounded to tenths |
| StatsCalculations.IndexOfMax | frontend/utils/statsCalculations.ts:185 | `indexOf(Math.max(...))` is the first index holding the largest value |
| StatsCalculations.MaxAtLeastAverage | frontend/utils/statsCalculations.ts:185 | a largest count times the number of counts bounds their sum |
| StatsCalculations.FavoriteMonthIsBusiest | frontend/utils/statsCalculations.ts:180-190 | the favourite month has the most activities, earlier months strictly fewer, and at least a twelfth of all |
| StatsCalculations.NoActivityMeansJanuary | frontend/utils/statsCalculations.ts:180-190 | with no activity the favourite month is January |
| StatsCalculations.NewAreas | frontend/utils/statsCalculations.ts:194 | the number of entries marked new is at most the number of entries |
| StatsCalculations.IdsAtMostActivities | frontend/utils/statsCalculations.ts:193-194 | there are no more distinct ids than activities |
| StatsCalculations.NewAreasAtMostActivities | frontend/utils/statsCalculations.ts:193-194 | `newAreasExplored` is at most the number of activities |
| StatsCalculations.CountByMonth | frontend/utils/statsCalculations.ts:180-184 | the month counters, which add up to the number of activities |
| StatsCalculations.GeneratePersonalizedSummary | frontend/utils/statsCalculations.ts:173-204 | rounded total km, list length, longest run, busiest month by name, rounded total gain, and the count of new entries, at most the list length |

## Left out

- The polyline decoder (`@mapbox/polyline`) and `haversineDistance` are parameters of type `string -> Option<seq<Point>>` and `(Point, Point) -> real`. The decoder is an outside library; the distance is floating-point trigonometry. Nothing is proved about geometry, and a throwing decode is `None`.
- The date fields are carried already extracted. The sort key is `new Date(start_date).getTime()`; `getMonth()` and `getHours()` of `start_date_local` are `localMonth` and `localHour`. The two `toLocaleDateString` labels are `shortDate` and `localeDate`. Parsing, time zones and invalid dates are not modelled.
- Floating point: every quantity is an exact real, so IEEE rounding of sums and quotients is not modelled.
- `Array.prototype.sort` is a library routine. It is modelled by a stable insertion sort on start time; ECMAScript 2019 requires `Array.prototype.sort` to be stable, so both give the same order.
- The `Infinity` / `-Infinity` initial values of `calculateMapBounds` are not modelled as numbers. The first point sets the bounds, which gives the same box. `hasValidData` tells whether a point was seen.
- `Object.keys` lists integer-like keys (such as "2024") first, in numeric order. The model lists keys by first appearance, which is what activity-type names give.
- The counting records of `groupActivitiesByType` and `formatHeatmapData` are plain objects, so they inherit `Object.prototype`. A key such as "constructor" or "toString" would start from an inherited function, and "__proto__" would not be stored. The model treats each record as a plain map from key to count. Strava type names and ISO date prefixes never collide with those names.
- Integer widths do not matter here; ids and counts are unbounded integers.
- `Math.max(...list)` over a very long list can exceed the engine's argument limit; this is not modelled.
- `groupActivitiesByWeek` is imported by a chart component but not defined in `chartDataProcessors.ts`, so there is nothing to model.
- The backend (OAuth scripts, the FastAPI routes, the Strava client, the database) and the React pages are I/O and rendering, and are not part of this model.
