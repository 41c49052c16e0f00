/**
 * The chart data of `chartDataProcessors`: the activity-type breakdown, the
 * monthly volume, the cumulative elevation, the scatter points and the
 * per-day heatmap counts.
 */
module ChartDataProcessors {

  import opened Strava
  import opened Numbers
  import opened Tally

  // ---------------------------------------------------------------------
  // groupActivitiesByType
  // ---------------------------------------------------------------------

  datatype TypeCount = TypeCount(name: string, value: nat)

  /** The `type` of every activity, in list order. */
  function Kinds(s: seq<Activity>): (r: seq<string>)
    ensures |r| == |s|
    ensures forall i :: 0 <= i < |s| ==> r[i] == s[i].kind
    decreases |s|
  {
    if s == [] then [] else Kinds(s[..|s| - 1]) + [s[|s| - 1].kind]
  }

  /** `Object.keys(record).map(k => ({name: k, value: record[k]}))`. */
  function Entries(ks: seq<string>, m: map<string, nat>): (r: seq<TypeCount>)
    requires forall k :: k in ks ==> k in m
    ensures |r| == |ks|
    ensures forall i :: 0 <= i < |ks| ==> r[i] == TypeCount(ks[i], m[ks[i]])
    decreases |ks|
  {
    if ks == [] then [] else [TypeCount(ks[0], m[ks[0]])] + Entries(ks[1..], m)
  }

  function TotalValue(r: seq<TypeCount>): nat
  {
    if r == [] then 0 else r[0].value + TotalValue(r[1..])
  }

  lemma {:induction false} EntriesTotal(ks: seq<string>, m: map<string, nat>)
    requires forall k :: k in ks ==> k in m
    ensures TotalValue(Entries(ks, m)) == SumOver(ks, m)
  {
    if ks != [] {
      EntriesTotal(ks[1..], m);
      assert Entries(ks, m)[1..] == Entries(ks[1..], m);
    }
  }

  /** The breakdown of a list of types: one entry per distinct type, by first appearance. */
  function Breakdown(kinds: seq<string>): seq<TypeCount>
  {
    TallyCounts(kinds);
    Entries(FirstAppearance(kinds), TallyOf(kinds))
  }

  /** Each distinct type is listed once, in order of first appearance. */
  lemma BreakdownNames(kinds: seq<string>)
    ensures var r, ks := Breakdown(kinds), FirstAppearance(kinds);
      |r| == |ks| && forall i :: 0 <= i < |r| ==> r[i].name == ks[i]
    ensures var r := Breakdown(kinds);
      forall i, j :: 0 <= i < j < |r| ==> r[i].name != r[j].name
    ensures var r := Breakdown(kinds);
      forall k :: k in kinds <==> exists i :: 0 <= i < |r| && r[i].name == k
  {
    TallyCounts(kinds);
    var ks, r := FirstAppearance(kinds), Breakdown(kinds);
    assert forall i :: 0 <= i < |r| ==> r[i].name == ks[i];
    forall k | k in kinds ensures exists i :: 0 <= i < |r| && r[i].name == k {
      var i :| 0 <= i < |ks| && ks[i] == k;
      assert r[i].name == k;
    }
    forall k, i | 0 <= i < |r| && r[i].name == k ensures k in kinds {
      assert ks[i] in ks;
    }
  }

  /** Each type comes with its number of occurrences, and the values add up. */
  lemma BreakdownCounts(kinds: seq<string>)
    ensures var r := Breakdown(kinds);
      forall i :: 0 <= i < |r| ==> r[i].value == Occurrences(kinds, r[i].name) && r[i].value >= 1
    ensures TotalValue(Breakdown(kinds)) == |kinds|
  {
    TallyCounts(kinds);
    EntriesTotal(FirstAppearance(kinds), TallyOf(kinds));
    TallyAddsUp(kinds);
  }

  /**
   * `groupActivitiesByType`: one entry per distinct type, in order of first
   * appearance, each with its number of activities (at least one); the
   * values add up to the number of activities.
   */
  method GroupActivitiesByType(activities: seq<Activity>) returns (r: seq<TypeCount>)
    ensures r == Breakdown(Kinds(activities))
    ensures var kinds := FirstAppearance(Kinds(activities));
      |r| == |kinds| && forall i :: 0 <= i < |r| ==> r[i].name == kinds[i]
    ensures forall i :: 0 <= i < |r| ==>
      r[i].value == Occurrences(Kinds(activities), r[i].name) && r[i].value >= 1
    ensures forall i, j :: 0 <= i < j < |r| ==> r[i].name != r[j].name
    ensures forall k :: k in Kinds(activities) <==> exists i :: 0 <= i < |r| && r[i].name == k
    ensures TotalValue(r) == |activities|
  {
    var typeCount: map<string, nat> := map[];
    var keys: seq<string> := [];
    for i := 0 to |activities|
      invariant typeCount == TallyOf(Kinds(activities[..i]))
      invariant keys == FirstAppearance(Kinds(activities[..i]))
    {
      var kind := activities[i].kind;
      assert activities[..i + 1][..i] == activities[..i];
      assert Kinds(activities[..i + 1]) == Kinds(activities[..i]) + [kind];
      CountOneMore(Kinds(activities[..i]), kind);
      if kind !in typeCount {
        keys := keys + [kind];
      }
      typeCount := typeCount[kind := (if kind in typeCount then typeCount[kind] else 0) + 1];
    }
    assert activities[..|activities|] == activities;
    TallyCounts(Kinds(activities));
    r := Entries(keys, typeCount);
    BreakdownNames(Kinds(activities));
    BreakdownCounts(Kinds(activities));
  }

  // ---------------------------------------------------------------------
  // groupActivitiesByMonth
  // ---------------------------------------------------------------------

  datatype MonthVolume = MonthVolume(name: string, distance: real)

  /**
   * `groupActivitiesByMonth`: twelve buckets, Jan to Dec; bucket m holds the
   * km of the activities of month m, summed first and then rounded to one
   * decimal place.
   */
  method GroupActivitiesByMonth(activities: seq<Activity>) returns (r: seq<MonthVolume>)
    ensures |r| == 12
    ensures forall m :: 0 <= m < 12 ==>
      r[m].name == MonthShortNames[m] && r[m].distance == RoundTo1(MonthlyKm(activities)[m])
  {
    var monthlyData := new MonthVolume[12](i requires 0 <= i < 12 => MonthVolume(MonthShortNames[i], 0.0));
    for i := 0 to |activities|
      invariant forall m :: 0 <= m < 12 ==>
        monthlyData[m] == MonthVolume(MonthShortNames[m], MonthlyKm(activities[..i])[m])
    {
      var activity := activities[i];
      assert activities[..i + 1][..i] == activities[..i];
      var monthIndex := activity.localMonth;
      monthlyData[monthIndex] := monthlyData[monthIndex].(distance := monthlyData[monthIndex].distance + activity.distance / 1000.0);
    }
    assert activities[..|activities|] == activities;
    var totals := monthlyData[..];
    r := seq(12, m requires 0 <= m < 12 => totals[m].(distance := RoundTo1(totals[m].distance)));
  }

  // ---------------------------------------------------------------------
  // calculateCumulativeElevation
  // ---------------------------------------------------------------------

  datatype ElevationPoint = ElevationPoint(date: string, elevation: int)

  /** The rounded elevation gained up to and including the i-th activity. */
  function ElevationAt(s: seq<Activity>, i: nat): int
    requires i < |s|
  {
    Round(SumBy(s[..i + 1], Gain))
  }

  /** With no negative gain, the rounded running totals never decrease. */
  lemma ElevationGrows(s: seq<Activity>)
    requires forall a :: a in s ==> a.totalElevationGain >= 0.0
    ensures forall i, j :: 0 <= i <= j < |s| ==> ElevationAt(s, i) <= ElevationAt(s, j)
  {
    forall i, j | 0 <= i <= j < |s| ensures ElevationAt(s, i) <= ElevationAt(s, j) {
      RunningTotalGrows(s, Gain, i + 1, j + 1);
      RoundMonotone(SumBy(s[..i + 1], Gain), SumBy(s[..j + 1], Gain));
    }
  }

  /** The series over `s` in the given order: one point per activity, its running total so far. */
  function ElevationSeries(s: seq<Activity>): seq<ElevationPoint>
    decreases |s|
  {
    if s == [] then []
    else ElevationSeries(s[..|s| - 1]) + [ElevationPoint(s[|s| - 1].localeDate, Round(SumBy(s, Gain)))]
  }

  /** Each point of the series is its activity's date with the rounded running total up to it. */
  lemma {:induction false} ElevationSeriesAt(s: seq<Activity>)
    ensures |ElevationSeries(s)| == |s|
    ensures forall i :: 0 <= i < |s| ==>
      ElevationSeries(s)[i] == ElevationPoint(s[i].localeDate, ElevationAt(s, i))
    decreases |s|
  {
    if s != [] {
      var init := s[..|s| - 1];
      ElevationSeriesAt(init);
      forall i | 0 <= i < |init| ensures ElevationAt(init, i) == ElevationAt(s, i) {
        assert init[..i + 1] == s[..i + 1];
      }
      assert s[..|s|] == s;
    }
  }

  /** With no negative gain the series never decreases. */
  lemma ElevationSeriesGrows(s: seq<Activity>)
    requires forall a :: a in s ==> a.totalElevationGain >= 0.0
    ensures forall i, j :: 0 <= i <= j < |ElevationSeries(s)| ==>
      ElevationSeries(s)[i].elevation <= ElevationSeries(s)[j].elevation
  {
    var data := ElevationSeries(s);
    ElevationSeriesAt(s);
    ElevationGrows(s);
    forall i, j | 0 <= i <= j < |data| ensures data[i].elevation <= data[j].elevation {
      assert data[i].elevation == ElevationAt(s, i);
      assert data[j].elevation == ElevationAt(s, j);
    }
  }

  /**
   * The chart over the chronological copy: one point per activity, each the
   * rounded running gain; with no negative gain it never decreases, and it
   * ends at the rounded total gain of the list.
   */
  lemma ElevationChart(activities: seq<Activity>)
    ensures var sorted := SortByStart(activities);
      var data := ElevationSeries(sorted);
      && |data| == |activities|
      && (forall i :: 0 <= i < |data| ==> data[i] == ElevationPoint(sorted[i].localeDate, ElevationAt(sorted, i)))
      && ((forall a :: a in activities ==> a.totalElevationGain >= 0.0) ==>
            forall i, j :: 0 <= i <= j < |data| ==> data[i].elevation <= data[j].elevation)
      && (|data| > 0 ==> data[|data| - 1].elevation == Round(SumBy(activities, Gain)))
  {
    var sorted := SortByStart(activities);
    ElevationSeriesAt(sorted);
    if forall a :: a in activities ==> a.totalElevationGain >= 0.0 {
      SortKeepsMembers(activities);
      ElevationSeriesGrows(sorted);
    }
    if |activities| > 0 {
      SortKeepsSum(activities, Gain);
    }
  }

  /**
   * `calculateCumulativeElevation`: one point per activity, in chronological
   * order, each the rounded running total of elevation gain; with no
   * negative gain the series never decreases, and it ends at the rounded
   * total gain.
   */
  method CalculateCumulativeElevation(activities: seq<Activity>) returns (data: seq<ElevationPoint>)
    ensures data == ElevationSeries(SortByStart(activities))
    ensures |data| == |activities|
    ensures var sorted := SortByStart(activities);
      forall i :: 0 <= i < |data| ==> data[i] == ElevationPoint(sorted[i].localeDate, ElevationAt(sorted, i))
    ensures (forall a :: a in activities ==> a.totalElevationGain >= 0.0) ==>
      forall i, j :: 0 <= i <= j < |data| ==> data[i].elevation <= data[j].elevation
    ensures |data| > 0 ==> data[|data| - 1].elevation == Round(SumBy(activities, Gain))
  {
    var sorted := SortByStart(activities);
    var cumulative := 0.0;
    data := [];
    for i := 0 to |sorted|
      invariant cumulative == SumBy(sorted[..i], Gain)
      invariant data == ElevationSeries(sorted[..i])
    {
      var activity := sorted[i];
      SumByStep(sorted, Gain, i);
      assert sorted[..i + 1][..i] == sorted[..i];
      cumulative := cumulative + activity.totalElevationGain;
      data := data + [ElevationPoint(activity.localeDate, Round(cumulative))];
    }
    assert sorted[..|sorted|] == sorted;
    ElevationChart(activities);
  }

  // ---------------------------------------------------------------------
  // formatScatterData
  // ---------------------------------------------------------------------

  datatype ScatterPoint = ScatterPoint(id: int, distance: real, speed: real, name: string, kind: string)

  /**
   * `formatScatterData`: a point per activity, in list order, keeping `id`,
   * `name` and `type`; distance in km to two decimals and speed in km/h to
   * one, as `toFixed` rounds them.
   */
  function FormatScatterData(s: seq<Activity>): (r: seq<ScatterPoint>)
    ensures |r| == |s|
    ensures forall i :: 0 <= i < |s| ==>
      r[i].id == s[i].id && r[i].name == s[i].name && r[i].kind == s[i].kind
    ensures forall i :: 0 <= i < |s| ==>
      r[i].speed == ToFixed(s[i].averageSpeed * 3.6, 10) && r[i].distance == ToFixed(Km(s[i]), 100)
    ensures forall i :: 0 <= i < |s| ==>
      -0.05 <= r[i].speed - s[i].averageSpeed * 3.6 <= 0.05
      && -0.005 <= r[i].distance - Km(s[i]) <= 0.005
  {
    seq(|s|, i requires 0 <= i < |s| =>
      ScatterPoint(s[i].id, ToFixed(Km(s[i]), 100), ToFixed(s[i].averageSpeed * 3.6, 10), s[i].name, s[i].kind))
  }

  // ---------------------------------------------------------------------
  // formatHeatmapData
  // ---------------------------------------------------------------------

  /** `s.split('T')[0]`: everything before the first 'T', or all of `s`. */
  function DateKey(s: string): (k: string)
    ensures k <= s
    ensures 'T' !in k
    ensures |k| < |s| ==> s[|k|] == 'T'
  {
    if s == [] || s[0] == 'T' then [] else [s[0]] + DateKey(s[1..])
  }

  /** The heatmap key of every activity, in list order. */
  function DateKeys(s: seq<Activity>): (r: seq<string>)
    ensures |r| == |s|
    ensures forall i :: 0 <= i < |s| ==> r[i] == DateKey(s[i].startDateLocal)
    decreases |s|
  {
    if s == [] then [] else DateKeys(s[..|s| - 1]) + [DateKey(s[|s| - 1].startDateLocal)]
  }

  /** The day keys counted are exactly the days some activity starts on. */
  lemma HeatmapKeys(s: seq<Activity>)
    ensures TallyOf(DateKeys(s)).Keys == set a | a in s :: DateKey(a.startDateLocal)
  {
    var keys, m := DateKeys(s), TallyOf(DateKeys(s));
    TallyCounts(keys);
    forall k | k in m ensures k in set a | a in s :: DateKey(a.startDateLocal) {
      var i :| 0 <= i < |keys| && keys[i] == k;
      assert s[i] in s;
    }
    forall a | a in s ensures DateKey(a.startDateLocal) in m {
      var i :| 0 <= i < |s| && s[i] == a;
      assert keys[i] == DateKey(a.startDateLocal);
    }
  }

  /**
   * `formatHeatmapData`: a count per day key; exactly the days that have an
   * activity are keys, each count is the number of activities of that day,
   * and the counts add up to the number of activities.
   */
  method FormatHeatmapData(activities: seq<Activity>) returns (dateMap: map<string, nat>)
    ensures dateMap == TallyOf(DateKeys(activities))
    ensures dateMap.Keys == set a | a in activities :: DateKey(a.startDateLocal)
    ensures forall k :: k in dateMap ==>
      dateMap[k] == Occurrences(DateKeys(activities), k) && dateMap[k] >= 1
    ensures SumOver(FirstAppearance(DateKeys(activities)), dateMap) == |activities|
  {
    dateMap := map[];
    for i := 0 to |activities|
      invariant dateMap == TallyOf(DateKeys(activities[..i]))
    {
      var dateStr := DateKey(activities[i].startDateLocal);
      assert activities[..i + 1][..i] == activities[..i];
      assert DateKeys(activities[..i + 1]) == DateKeys(activities[..i]) + [dateStr];
      CountOneMore(DateKeys(activities[..i]), dateStr);
      dateMap := dateMap[dateStr := (if dateStr in dateMap then dateMap[dateStr] else 0) + 1];
    }
    assert activities[..|activities|] == activities;
    TallyCounts(DateKeys(activities));
    TallyAddsUp(DateKeys(activities));
    HeatmapKeys(activities);
  }
}
