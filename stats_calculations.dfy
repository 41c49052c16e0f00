/**
 * The statistics of `statsCalculations`: cumulative distance, pace
 * evolution, time-of-day breakdown, new versus repeated routes per month
 * and the personalised summary.
 */
module StatsCalculations {

  import opened Strava
  import opened Numbers
  import opened RouteAnalysis

  // ---------------------------------------------------------------------
  // calculateCumulativeDistance
  // ---------------------------------------------------------------------

  datatype CumulativeDataPoint = CumulativeDataPoint(date: string, distance: real)

  /** The km covered up to and including the i-th activity, to one decimal. */
  function DistanceAt(s: seq<Activity>, i: nat): real
    requires i < |s|
  {
    RoundTo1(SumBy(s[..i + 1], Km))
  }

  /** With no negative distance, the rounded running totals never decrease. */
  lemma DistanceGrows(s: seq<Activity>)
    requires forall a :: a in s ==> a.distance >= 0.0
    ensures forall i, j :: 0 <= i <= j < |s| ==> DistanceAt(s, i) <= DistanceAt(s, j)
  {
    forall i, j | 0 <= i <= j < |s| ensures DistanceAt(s, i) <= DistanceAt(s, j) {
      RunningTotalGrows(s, Km, i + 1, j + 1);
      RoundTo1Monotone(SumBy(s[..i + 1], Km), SumBy(s[..j + 1], Km));
    }
  }

  /** The series over `s` in the given order: one point per activity, its running km so far. */
  function DistanceSeries(s: seq<Activity>): seq<CumulativeDataPoint>
    decreases |s|
  {
    if s == [] then []
    else DistanceSeries(s[..|s| - 1]) + [CumulativeDataPoint(s[|s| - 1].shortDate, RoundTo1(SumBy(s, Km)))]
  }

  /** Each point of the series is its activity's label with the rounded running km up to it. */
  lemma {:induction false} DistanceSeriesAt(s: seq<Activity>)
    ensures |DistanceSeries(s)| == |s|
    ensures forall i :: 0 <= i < |s| ==>
      DistanceSeries(s)[i] == CumulativeDataPoint(s[i].shortDate, DistanceAt(s, i))
    decreases |s|
  {
    if s != [] {
      var init := s[..|s| - 1];
      DistanceSeriesAt(init);
      forall i | 0 <= i < |init| ensures DistanceAt(init, i) == DistanceAt(s, i) {
        assert init[..i + 1] == s[..i + 1];
      }
      assert s[..|s|] == s;
    }
  }

  /** With no negative distance the series never decreases. */
  lemma DistanceSeriesGrows(s: seq<Activity>)
    requires forall a :: a in s ==> a.distance >= 0.0
    ensures forall i, j :: 0 <= i <= j < |DistanceSeries(s)| ==>
      DistanceSeries(s)[i].distance <= DistanceSeries(s)[j].distance
  {
    var data := DistanceSeries(s);
    DistanceSeriesAt(s);
    DistanceGrows(s);
    forall i, j | 0 <= i <= j < |data| ensures data[i].distance <= data[j].distance {
      assert data[i].distance == DistanceAt(s, i);
      assert data[j].distance == DistanceAt(s, j);
    }
  }

  /**
   * The chart over the chronological copy: one point per activity, each the
   * running km rounded to tenths; with no negative distance it never
   * decreases, and it ends at the rounded total km of the list.
   */
  lemma DistanceChart(activities: seq<Activity>)
    ensures var sorted := SortByStart(activities);
      var data := DistanceSeries(sorted);
      && |data| == |activities|
      && (forall i :: 0 <= i < |data| ==> data[i] == CumulativeDataPoint(sorted[i].shortDate, DistanceAt(sorted, i)))
      && ((forall a :: a in activities ==> a.distance >= 0.0) ==>
            forall i, j :: 0 <= i <= j < |data| ==> data[i].distance <= data[j].distance)
      && (|data| > 0 ==> data[|data| - 1].distance == RoundTo1(SumBy(activities, Km)))
  {
    var sorted := SortByStart(activities);
    DistanceSeriesAt(sorted);
    if forall a :: a in activities ==> a.distance >= 0.0 {
      SortKeepsMembers(activities);
      DistanceSeriesGrows(sorted);
    }
    if |activities| > 0 {
      SortKeepsSum(activities, Km);
    }
  }

  /**
   * `calculateCumulativeDistance`: one point per activity, in chronological
   * order, each the running total in km rounded to one decimal; with no
   * negative distance the series never decreases, and it ends at the
   * rounded total distance.
   */
  method CalculateCumulativeDistance(activities: seq<Activity>) returns (data: seq<CumulativeDataPoint>)
    ensures data == DistanceSeries(SortByStart(activities))
    ensures |data| == |activities|
    ensures var sorted := SortByStart(activities);
      forall i :: 0 <= i < |data| ==> data[i] == CumulativeDataPoint(sorted[i].shortDate, DistanceAt(sorted, i))
    ensures (forall a :: a in activities ==> a.distance >= 0.0) ==>
      forall i, j :: 0 <= i <= j < |data| ==> data[i].distance <= data[j].distance
    ensures |data| > 0 ==> data[|data| - 1].distance == RoundTo1(SumBy(activities, Km))
  {
    var sorted := SortByStart(activities);
    var cumulative := 0.0;
    data := [];
    for i := 0 to |sorted|
      invariant cumulative == SumBy(sorted[..i], Km)
      invariant data == DistanceSeries(sorted[..i])
    {
      var activity := sorted[i];
      SumByStep(sorted, Km, i);
      assert sorted[..i + 1][..i] == sorted[..i];
      cumulative := cumulative + Km(activity);
      data := data + [CumulativeDataPoint(activity.shortDate, RoundTo1(cumulative))];
    }
    assert sorted[..|sorted|] == sorted;
    DistanceChart(activities);
  }

  // ---------------------------------------------------------------------
  // analyzePaceEvolution
  // ---------------------------------------------------------------------

  datatype PaceDataPoint = PaceDataPoint(date: string, pace: real, month: string)

  /** A run with a distance and a moving time, so that its pace is defined. */
  predicate IsPaceEligible(a: Activity)
  {
    (a.kind == "Run" || a.kind == "Running") && a.distance > 0.0 && a.movingTime > 0
  }

  /** The `filter`: the eligible activities, in list order, each as often as in the input. */
  function RunningActivities(s: seq<Activity>): (r: seq<Activity>)
    ensures |r| <= |s|
    ensures forall a :: a in r <==> a in s && IsPaceEligible(a)
    ensures forall a :: multiset(r)[a] == if IsPaceEligible(a) then multiset(s)[a] else 0
    decreases |s|
  {
    if s == [] then []
    else
      var init, last := s[..|s| - 1], s[|s| - 1];
      assert s == init + [last];
      RunningActivities(init) + (if IsPaceEligible(last) then [last] else [])
  }

  /** Minutes per km, unrounded. */
  function ExactPace(a: Activity): real
    requires a.distance > 0.0
  {
    (a.movingTime as real / 60.0) / (a.distance / 1000.0)
  }

  /** The pace as plotted: minutes per km to one decimal. */
  function PaceOf(a: Activity): (p: real)
    requires a.distance > 0.0
    ensures ExactPace(a) - 0.05 < p <= ExactPace(a) + 0.05
  {
    RoundTo1(ExactPace(a))
  }

  /** An eligible activity never plots a negative pace. */
  lemma PaceNonNegative(a: Activity)
    requires IsPaceEligible(a)
    ensures ExactPace(a) > 0.0
    ensures PaceOf(a) >= 0.0
  {
    var t, d := a.movingTime as real / 60.0, a.distance / 1000.0;
    assert t > 0.0 && d > 0.0;
    assert t / d > 0.0;
    assert Round(ExactPace(a) * 10.0) >= 0;
  }

  /** The point plotted for an activity: its short date, its pace and its short month name. */
  function PacePoint(a: Activity): PaceDataPoint
    requires a.distance > 0.0
  {
    PaceDataPoint(a.shortDate, PaceOf(a), MonthShortNames[a.localMonth])
  }

  /**
   * `analyzePaceEvolution`: one point per eligible activity, in
   * chronological order; no pace is negative.
   */
  method AnalyzePaceEvolution(activities: seq<Activity>) returns (data: seq<PaceDataPoint>)
    ensures var sorted := SortByStart(RunningActivities(activities));
      |data| == |sorted|
      && forall i :: 0 <= i < |data| ==> IsPaceEligible(sorted[i]) && data[i] == PacePoint(sorted[i])
    ensures forall i :: 0 <= i < |data| ==> data[i].pace >= 0.0
  {
    var runningActivities := RunningActivities(activities);
    var sorted := SortByStart(runningActivities);
    SortKeepsMembers(runningActivities);
    data := [];
    for i := 0 to |sorted|
      invariant |data| == i
      invariant forall k :: 0 <= k < i ==>
        IsPaceEligible(sorted[k]) && data[k] == PacePoint(sorted[k]) && data[k].pace >= 0.0
    {
      var activity := sorted[i];
      assert activity in sorted;
      PaceNonNegative(activity);
      var pace := ExactPace(activity);
      data := data + [PaceDataPoint(activity.shortDate, RoundTo1(pace), MonthShortNames[activity.localMonth])];
    }
  }

  // ---------------------------------------------------------------------
  // categorizeTimeOfDay
  // ---------------------------------------------------------------------

  datatype Period = Morning | Afternoon | Evening | Night

  /** The period of a local hour: [5, 12), [12, 17), [17, 21), everything else. */
  function PeriodOf(hour: int): (p: Period)
    ensures p == Morning <==> 5 <= hour < 12
    ensures p == Afternoon <==> 12 <= hour < 17
    ensures p == Evening <==> 17 <= hour < 21
    ensures p == Night <==> hour < 5 || 21 <= hour
  {
    if hour >= 5 && hour < 12 then Morning
    else if hour >= 12 && hour < 17 then Afternoon
    else if hour >= 17 && hour < 21 then Evening
    else Night
  }

  function Label(p: Period): string
  {
    match p
    case Morning => "Morning (5am-12pm)"
    case Afternoon => "Afternoon (12pm-5pm)"
    case Evening => "Evening (5pm-9pm)"
    case Night => "Night (9pm-5am)"
  }

  function Color(p: Period): string
  {
    match p
    case Morning => "#fbbf24"
    case Afternoon => "#f59e0b"
    case Evening => "#d97706"
    case Night => "#92400e"
  }

  datatype TimeOfDayData = TimeOfDayData(name: string, value: nat, color: string)

  /** How many activities of `s` start in period `p`. */
  function CountIn(s: seq<Activity>, p: Period): (n: nat)
    ensures n <= |s|
    decreases |s|
  {
    if s == [] then 0
    else CountIn(s[..|s| - 1], p) + (if PeriodOf(s[|s| - 1].localHour) == p then 1 else 0)
  }

  /** Every activity falls in exactly one period. */
  lemma {:induction false} PeriodsAddUp(s: seq<Activity>)
    ensures CountIn(s, Morning) + CountIn(s, Afternoon) + CountIn(s, Evening) + CountIn(s, Night) == |s|
    decreases |s|
  {
    if s != [] {
      PeriodsAddUp(s[..|s| - 1]);
    }
  }

  /** The four rows, in the fixed order morning, afternoon, evening, night. */
  function PeriodRows(s: seq<Activity>): seq<TimeOfDayData>
  {
    [ TimeOfDayData(Label(Morning), CountIn(s, Morning), Color(Morning)),
      TimeOfDayData(Label(Afternoon), CountIn(s, Afternoon), Color(Afternoon)),
      TimeOfDayData(Label(Evening), CountIn(s, Evening), Color(Evening)),
      TimeOfDayData(Label(Night), CountIn(s, Night), Color(Night)) ]
  }

  function TotalOf(q: seq<TimeOfDayData>): nat
  {
    if q == [] then 0 else q[0].value + TotalOf(q[1..])
  }

  /** `r` is made of elements of `q`, taken in the order they have in `q`. */
  predicate SubsequenceOf(r: seq<TimeOfDayData>, q: seq<TimeOfDayData>)
    decreases |q|
  {
    if r == [] then true
    else if q == [] then false
    else (r[0] == q[0] && SubsequenceOf(r[1..], q[1..])) || SubsequenceOf(r, q[1..])
  }

  /** `filter(item => item.value > 0)`: drops the empty rows and keeps the order. */
  function KeepNonZero(q: seq<TimeOfDayData>): (r: seq<TimeOfDayData>)
    ensures |r| <= |q|
    ensures forall x :: x in r <==> x in q && x.value > 0
    ensures TotalOf(r) == TotalOf(q)
    ensures SubsequenceOf(r, q)
  {
    if q == [] then []
    else if q[0].value > 0 then
      var rest := KeepNonZero(q[1..]);
      assert ([q[0]] + rest)[1..] == rest;
      [q[0]] + rest
    else KeepNonZero(q[1..])
  }

  /** The place of a row in the fixed order morning, afternoon, evening, night. */
  function RowRank(d: TimeOfDayData): nat
  {
    if d.name == Label(Morning) then 0
    else if d.name == Label(Afternoon) then 1
    else if d.name == Label(Evening) then 2
    else 3
  }

  /** Dropping rows keeps rows that were in increasing rank in increasing rank. */
  lemma {:induction false} KeepNonZeroRanked(q: seq<TimeOfDayData>, rank: TimeOfDayData -> nat)
    requires forall i, j :: 0 <= i < j < |q| ==> rank(q[i]) < rank(q[j])
    ensures forall i, j :: 0 <= i < j < |KeepNonZero(q)| ==>
      rank(KeepNonZero(q)[i]) < rank(KeepNonZero(q)[j])
  {
    if q != [] {
      forall i, j | 0 <= i < j < |q[1..]| ensures rank(q[1..][i]) < rank(q[1..][j]) {
        assert q[1..][i] == q[i + 1] && q[1..][j] == q[j + 1];
      }
      KeepNonZeroRanked(q[1..], rank);
      var rest := KeepNonZero(q[1..]);
      if q[0].value > 0 {
        forall x | x in rest ensures rank(q[0]) < rank(x) {
          assert x in q[1..];
          var k :| 0 <= k < |q[1..]| && q[1..][k] == x;
          assert q[k + 1] == x;
          assert rank(q[0]) < rank(q[k + 1]);
        }
        ConsRanked(q[0], rest, rank);
      }
    }
  }

  /** A head ranked below every later row keeps the rows in increasing rank. */
  lemma ConsRanked(h: TimeOfDayData, t: seq<TimeOfDayData>, rank: TimeOfDayData -> nat)
    requires forall x :: x in t ==> rank(h) < rank(x)
    requires forall i, j :: 0 <= i < j < |t| ==> rank(t[i]) < rank(t[j])
    ensures forall i, j :: 0 <= i < j < |[h] + t| ==> rank(([h] + t)[i]) < rank(([h] + t)[j])
  {
    var r := [h] + t;
    forall i, j | 0 <= i < j < |r| ensures rank(r[i]) < rank(r[j]) {
      assert r[j] == t[j - 1] && t[j - 1] in t;
      if i > 0 {
        assert r[i] == t[i - 1];
      }
    }
  }

  /** One more activity counts in its own period only. */
  lemma CountInStep(s: seq<Activity>, i: nat)
    requires i < |s|
    ensures forall p ::
      CountIn(s[..i + 1], p) == CountIn(s[..i], p) + (if PeriodOf(s[i].localHour) == p then 1 else 0)
  {
    assert s[..i + 1][..i] == s[..i];
  }

  /**
   * The non-empty rows: at most four, each non-empty, a period listed exactly
   * when some activity starts in it, and the values add up to the number of
   * activities.
   */
  lemma NonEmptyRows(s: seq<Activity>)
    ensures var r := KeepNonZero(PeriodRows(s));
      && |r| <= 4
      && (forall i, j :: 0 <= i < j < |r| ==> RowRank(r[i]) < RowRank(r[j]))
      && (forall x :: x in r ==> x.value > 0)
      && (forall p :: CountIn(s, p) > 0 <==> TimeOfDayData(Label(p), CountIn(s, p), Color(p)) in r)
      && TotalOf(r) == |s|
  {
    var rows := PeriodRows(s);
    PeriodsAddUp(s);
    assert RowRank(rows[0]) == 0 && RowRank(rows[1]) == 1 && RowRank(rows[2]) == 2 && RowRank(rows[3]) == 3;
    KeepNonZeroRanked(rows, RowRank);
    assert TotalOf(rows[3..]) == CountIn(s, Night);
    assert TotalOf(rows[2..]) == CountIn(s, Evening) + CountIn(s, Night);
    assert TotalOf(rows[1..]) == CountIn(s, Afternoon) + CountIn(s, Evening) + CountIn(s, Night);
    forall p ensures TimeOfDayData(Label(p), CountIn(s, p), Color(p)) in rows {
      match p
      case Morning => assert rows[0] == TimeOfDayData(Label(p), CountIn(s, p), Color(p));
      case Afternoon => assert rows[1] == TimeOfDayData(Label(p), CountIn(s, p), Color(p));
      case Evening => assert rows[2] == TimeOfDayData(Label(p), CountIn(s, p), Color(p));
      case Night => assert rows[3] == TimeOfDayData(Label(p), CountIn(s, p), Color(p));
    }
  }

  /**
   * `categorizeTimeOfDay`: the non-empty periods in fixed order, each with
   * its number of activities; a period is listed exactly when some activity
   * starts in it, and the values add up to the number of activities.
   */
  method CategorizeTimeOfDay(activities: seq<Activity>) returns (r: seq<TimeOfDayData>)
    ensures r == KeepNonZero(PeriodRows(activities))
    ensures |r| <= 4
    ensures forall i, j :: 0 <= i < j < |r| ==> RowRank(r[i]) < RowRank(r[j])
    ensures forall x :: x in r ==> x.value > 0
    ensures forall p :: CountIn(activities, p) > 0 <==>
      TimeOfDayData(Label(p), CountIn(activities, p), Color(p)) in r
    ensures TotalOf(r) == |activities|
  {
    var morning, afternoon, evening, night := 0, 0, 0, 0;
    for i := 0 to |activities|
      invariant morning == CountIn(activities[..i], Morning)
      invariant afternoon == CountIn(activities[..i], Afternoon)
      invariant evening == CountIn(activities[..i], Evening)
      invariant night == CountIn(activities[..i], Night)
    {
      var hour := activities[i].localHour;
      CountInStep(activities, i);
      if hour >= 5 && hour < 12 {
        morning := morning + 1;
      } else if hour >= 12 && hour < 17 {
        afternoon := afternoon + 1;
      } else if hour >= 17 && hour < 21 {
        evening := evening + 1;
      } else {
        night := night + 1;
      }
    }
    assert activities[..|activities|] == activities;
    var rows := [ TimeOfDayData(Label(Morning), morning, Color(Morning)),
                  TimeOfDayData(Label(Afternoon), afternoon, Color(Afternoon)),
                  TimeOfDayData(Label(Evening), evening, Color(Evening)),
                  TimeOfDayData(Label(Night), night, Color(Night)) ];
    r := KeepNonZero(rows);
    NonEmptyRows(activities);
  }

  /** Four activities at 06:00, 14:00, 22:00 and 02:00 give three rows; night has two. */
  lemma TimeOfDayScenario(a: Activity)
    ensures var s := [a.(localHour := 6), a.(localHour := 14), a.(localHour := 22), a.(localHour := 2)];
      KeepNonZero(PeriodRows(s)) == [
        TimeOfDayData("Morning (5am-12pm)", 1, "#fbbf24"),
        TimeOfDayData("Afternoon (12pm-5pm)", 1, "#f59e0b"),
        TimeOfDayData("Night (9pm-5am)", 2, "#92400e") ]
  {
    var s := [a.(localHour := 6), a.(localHour := 14), a.(localHour := 22), a.(localHour := 2)];
    assert s[..3][..2][..1][..0] == [];
    forall p ensures CountIn(s[..1], p) == if p == Morning then 1 else 0 {
      assert s[..1][..0] == [];
    }
    forall p ensures CountIn(s[..2], p) == if p == Morning || p == Afternoon then 1 else 0 {
      assert s[..2][..1] == s[..1];
    }
    forall p ensures CountIn(s[..3], p) == if p == Evening then 0 else 1 {
      assert s[..3][..2] == s[..2];
    }
    forall p ensures CountIn(s, p) == if p == Evening then 0 else if p == Night then 2 else 1 {
      assert s[..3] == s[..|s| - 1];
    }
    var rows := PeriodRows(s);
    assert KeepNonZero(rows[3..]) == [rows[3]] by {
      assert rows[3..][1..] == [];
    }
    assert KeepNonZero(rows[2..]) == [rows[3]] by {
      assert rows[2..][1..] == rows[3..];
    }
    assert KeepNonZero(rows[1..]) == [rows[1], rows[3]] by {
      assert rows[1..][1..] == rows[2..];
    }
  }

  // ---------------------------------------------------------------------
  // analyzeNewVsRepeatedByMonth
  // ---------------------------------------------------------------------

  /** A month's bar: how many of its activities were new routes and how many repeats. */
  datatype NewVsRepeated = NewVsRepeated(month: string, newRoutes: nat, repeatedRoutes: nat)

  function EmptyMonths(): (q: seq<NewVsRepeated>)
    ensures |q| == 12
  {
    seq(12, k requires 0 <= k < 12 => NewVsRepeated(MonthShortNames[k], 0, 0))
  }

  /** `isNew ? bar.newRoutes++ : bar.repeatedRoutes++`. */
  function BumpBar(bar: NewVsRepeated, isNew: bool): (b: NewVsRepeated)
    ensures b.month == bar.month
    ensures b.newRoutes + b.repeatedRoutes == bar.newRoutes + bar.repeatedRoutes + 1
  {
    if isNew then bar.(newRoutes := bar.newRoutes + 1)
    else bar.(repeatedRoutes := bar.repeatedRoutes + 1)
  }

  /** The twelve bars after counting every activity of `s` against the metadata `m`. */
  function MonthlySplit(s: seq<Activity>, m: map<int, RouteMetadata>): (q: seq<NewVsRepeated>)
    ensures |q| == 12
    ensures forall k :: 0 <= k < 12 ==> q[k].month == MonthShortNames[k]
    decreases |s|
  {
    if s == [] then EmptyMonths()
    else
      var q := MonthlySplit(s[..|s| - 1], m);
      var a := s[|s| - 1];
      if a.id !in m then q
      else q[a.localMonth := BumpBar(q[a.localMonth], m[a.id].isNew)]
  }

  /** One more activity bumps one counter of its own month, if it has metadata. */
  lemma SplitOneMore(s: seq<Activity>, i: nat, m: map<int, RouteMetadata>)
    requires i < |s|
    ensures var q, a := MonthlySplit(s[..i], m), s[i];
      MonthlySplit(s[..i + 1], m)
        == if a.id !in m then q else q[a.localMonth := BumpBar(q[a.localMonth], m[a.id].isNew)]
  {
    assert s[..i + 1][..i] == s[..i];
  }

  function BarsTotal(q: seq<NewVsRepeated>): nat
  {
    if q == [] then 0 else q[0].newRoutes + q[0].repeatedRoutes + BarsTotal(q[1..])
  }

  lemma {:induction false} BarsTotalBump(q: seq<NewVsRepeated>, k: nat, b: NewVsRepeated)
    requires k < |q|
    requires b.newRoutes + b.repeatedRoutes == q[k].newRoutes + q[k].repeatedRoutes + 1
    ensures BarsTotal(q[k := b]) == BarsTotal(q) + 1
  {
    if k > 0 {
      assert q[k := b][1..] == q[1..][k - 1 := b];
      BarsTotalBump(q[1..], k - 1, b);
    }
  }

  lemma {:induction false} BarsTotalOfEmpty(q: seq<NewVsRepeated>)
    requires forall k :: 0 <= k < |q| ==> q[k].newRoutes == 0 && q[k].repeatedRoutes == 0
    ensures BarsTotal(q) == 0
  {
    if q != [] {
      BarsTotalOfEmpty(q[1..]);
    }
  }

  /** When every activity has metadata, each one is counted in exactly one bar. */
  lemma {:induction false} SplitAddsUp(s: seq<Activity>, m: map<int, RouteMetadata>)
    requires forall a :: a in s ==> a.id in m
    ensures BarsTotal(MonthlySplit(s, m)) == |s|
    decreases |s|
  {
    if s == [] {
      BarsTotalOfEmpty(EmptyMonths());
    } else {
      var init, a := s[..|s| - 1], s[|s| - 1];
      forall x | x in init ensures x.id in m {
        var i :| 0 <= i < |init| && init[i] == x;
        assert s[i] == x;
      }
      SplitAddsUp(init, m);
      var q, k := MonthlySplit(init, m), a.localMonth;
      assert s[|s| - 1] in s;
      BarsTotalBump(q, k, BumpBar(q[k], m[a.id].isNew));
    }
  }

  /**
   * The `forEach` of `analyzeNewVsRepeatedByMonth`: twelve month bars, each
   * activity with metadata bumping the new or the repeated counter of its month.
   */
  method SplitByMonth(activities: seq<Activity>, routeMetadata: map<int, RouteMetadata>)
    returns (r: seq<NewVsRepeated>)
    ensures r == MonthlySplit(activities, routeMetadata)
  {
    var monthlyData := new NewVsRepeated[12](k requires 0 <= k < 12 => NewVsRepeated(MonthShortNames[k], 0, 0));
    assert monthlyData[..] == EmptyMonths();
    for i := 0 to |activities|
      invariant monthlyData[..] == MonthlySplit(activities[..i], routeMetadata)
    {
      var activity := activities[i];
      SplitOneMore(activities, i, routeMetadata);
      var monthIndex := activity.localMonth;
      if activity.id in routeMetadata {
        monthlyData[monthIndex] := BumpBar(monthlyData[monthIndex], routeMetadata[activity.id].isNew);
      }
    }
    assert activities[..|activities|] == activities;
    r := monthlyData[..];
  }

  /**
   * `analyzeNewVsRepeatedByMonth`: twelve bars, Jan to Dec, counting each
   * activity, in list order, as new or repeated by the metadata its id got
   * from `analyzeRouteFrequency`; every activity is counted once.
   */
  method AnalyzeNewVsRepeatedByMonth(activities: seq<Activity>, decode: Decoder, dist: Distance)
    returns (r: seq<NewVsRepeated>)
    ensures r == MonthlySplit(activities, RouteFrequency(activities, decode, dist))
    ensures |r| == 12 && forall k :: 0 <= k < 12 ==> r[k].month == MonthShortNames[k]
    ensures BarsTotal(r) == |activities|
  {
    var routeMetadata := AnalyzeRouteFrequency(activities, decode, dist);
    r := SplitByMonth(activities, routeMetadata);
    SplitAddsUp(activities, routeMetadata);
  }

  // ---------------------------------------------------------------------
  // generatePersonalizedSummary
  // ---------------------------------------------------------------------

  /** A number that may be `-Infinity`, what `Math.max()` of nothing gives. */
  datatype ExtReal = NegInfinity | Finite(value: real)

  datatype PersonalizedSummary = PersonalizedSummary(
    totalDistance: int,
    totalActivities: nat,
    longestRun: ExtReal,
    favoriteMonth: string,
    totalElevation: int,
    newAreasExplored: nat)

  /** The summed distance in km, before rounding. */
  function TotalKm(s: seq<Activity>): real
  {
    SumBy(s, Metres) / 1000.0
  }

  /** `Math.max(...distances)` of a non-empty list. */
  function MaxDistance(s: seq<Activity>): (d: real)
    requires s != []
    ensures forall i :: 0 <= i < |s| ==> s[i].distance <= d
    ensures exists i :: 0 <= i < |s| && s[i].distance == d
    decreases |s|
  {
    if |s| == 1 then s[0].distance
    else
      var init, last := s[..|s| - 1], s[|s| - 1];
      assert s == init + [last];
      var m := MaxDistance(init);
      if last.distance > m then last.distance else m
  }

  /** The longest activity's distance is the largest distance. */
  lemma LongestIsMax(s: seq<Activity>)
    requires s != []
    ensures FindLongestRun(s).Some? && FindLongestRun(s).value.distance == MaxDistance(s)
  {
  }

  /**
   * The summary's `longestRun`: `Math.max` of the distances in km, to one
   * decimal; `Math.max()` of no distance is `-Infinity`, which stays
   * `-Infinity` through the division and the rounding.
   */
  function LongestRunKm(s: seq<Activity>): ExtReal
  {
    if s == [] then NegInfinity else Finite(RoundTo1(MaxDistance(s) / 1000.0))
  }

  /** The summary's longest run is that of `findLongestRun`, in km to one decimal. */
  lemma LongestRunKmIsLongest(s: seq<Activity>)
    ensures LongestRunKm(s).NegInfinity? <==> s == []
    ensures s != [] ==>
      LongestRunKm(s) == Finite(RoundTo1(FindLongestRun(s).value.distance / 1000.0))
  {
    if s != [] {
      LongestIsMax(s);
    }
  }

  /** `indexOf(Math.max(...q))`: the first index holding the largest value. */
  function IndexOfMax(q: seq<nat>): (k: nat)
    requires q != []
    ensures k < |q|
    ensures forall j :: 0 <= j < |q| ==> q[j] <= q[k]
    ensures forall j :: 0 <= j < k ==> q[j] < q[k]
    decreases |q|
  {
    if |q| == 1 then 0
    else
      var k := IndexOfMax(q[..|q| - 1]);
      if q[|q| - 1] > q[k] then |q| - 1 else k
  }

  /** A largest entry is at least the average. */
  lemma {:induction false} MaxAtLeastAverage(q: seq<nat>, top: nat)
    requires forall j :: 0 <= j < |q| ==> q[j] <= top
    ensures Sum(q) <= |q| * top
  {
    if q != [] {
      MaxAtLeastAverage(q[1..], top);
    }
  }

  /** The calendar month with the most activities, the earliest on a tie. */
  function FavoriteMonth(s: seq<Activity>): (m: MonthIndex)
  {
    IndexOfMax(MonthlyCounts(s))
  }

  /** The favourite month has the most activities, at least a twelfth of them. */
  lemma FavoriteMonthIsBusiest(s: seq<Activity>)
    ensures forall k :: 0 <= k < 12 ==> MonthlyCounts(s)[k] <= MonthlyCounts(s)[FavoriteMonth(s)]
    ensures forall k :: 0 <= k < FavoriteMonth(s) ==> MonthlyCounts(s)[k] < MonthlyCounts(s)[FavoriteMonth(s)]
    ensures |s| <= 12 * MonthlyCounts(s)[FavoriteMonth(s)]
  {
    MonthlyCountsAddUp(s);
    MaxAtLeastAverage(MonthlyCounts(s), MonthlyCounts(s)[FavoriteMonth(s)]);
  }

  /** With no activity every count is zero and the favourite month is January. */
  lemma NoActivityMeansJanuary()
    ensures MonthNames[FavoriteMonth([])] == "January"
  {
    var q := MonthlyCounts([]);
    assert q[0] == 0 && q[FavoriteMonth([])] == 0;
  }

  /** The number of metadata entries marked new. */
  function NewAreas(m: map<int, RouteMetadata>): (n: nat)
    ensures n <= |m.Keys|
  {
    var ids := set id | id in m && m[id].isNew;
    assert ids <= m.Keys;
    CardinalityOfSubset(ids, m.Keys);
    |ids|
  }

  lemma CardinalityOfSubset(a: set<int>, b: set<int>)
    requires a <= b
    ensures |a| <= |b|
  {
    assert b == a + (b - a);
  }

  /** There are no more distinct ids than activities. */
  lemma {:induction false} IdsAtMostActivities(s: seq<Activity>)
    ensures |set a | a in s :: a.id| <= |s|
    decreases |s|
  {
    if s != [] {
      var init, last := s[..|s| - 1], s[|s| - 1];
      IdsAtMostActivities(init);
      assert s == init + [last];
      assert (set a | a in s :: a.id) == (set a | a in init :: a.id) + {last.id};
    }
  }

  /** At most one new area per activity. */
  lemma NewAreasAtMostActivities(s: seq<Activity>, decode: Decoder, dist: Distance)
    ensures NewAreas(RouteFrequency(s, decode, dist)) <= |s|
  {
    RunKeys(SortByStart(s), decode, dist);
    SortKeepsMembers(s);
    IdsAtMostActivities(s);
    assert RouteFrequency(s, decode, dist).Keys == set a | a in s :: a.id;
  }

  /**
   * The `monthCounts` loop of the summary: an activity count per calendar
   * month, every activity counted once.
   */
  method CountByMonth(activities: seq<Activity>) returns (counts: seq<nat>)
    ensures counts == MonthlyCounts(activities)
    ensures |counts| == 12 && Sum(counts) == |activities|
  {
    var monthCounts := new nat[12](_ => 0);
    assert monthCounts[..] == MonthlyCounts([]);
    for i := 0 to |activities|
      invariant monthCounts[..] == MonthlyCounts(activities[..i])
    {
      assert activities[..i + 1][..i] == activities[..i];
      var month := activities[i].localMonth;
      monthCounts[month] := monthCounts[month] + 1;
    }
    assert activities[..|activities|] == activities;
    counts := monthCounts[..];
    MonthlyCountsAddUp(activities);
  }

  /**
   * `generatePersonalizedSummary`: the rounded total km, the number of
   * activities, the longest distance in km to one decimal (`-Infinity` for
   * no activity), the busiest month by name, the rounded total elevation and
   * the number of ids whose route was new.
   */
  method GeneratePersonalizedSummary(activities: seq<Activity>, decode: Decoder, dist: Distance)
    returns (summary: PersonalizedSummary)
    ensures summary.totalDistance == Round(TotalKm(activities))
    ensures summary.totalActivities == |activities|
    ensures summary.longestRun == LongestRunKm(activities)
    ensures summary.favoriteMonth == MonthNames[FavoriteMonth(activities)]
    ensures summary.totalElevation == Round(SumBy(activities, Gain))
    ensures summary.newAreasExplored == NewAreas(RouteFrequency(activities, decode, dist))
    ensures summary.newAreasExplored <= |activities|
  {
    var monthCounts := CountByMonth(activities);
    var totalDistance := TotalKm(activities);
    var totalActivities := |activities|;
    var longestRun := LongestRunKm(activities);
    var totalElevation := SumBy(activities, Gain);
    var favoriteMonthIndex := IndexOfMax(monthCounts);
    var favoriteMonth := MonthNames[favoriteMonthIndex];

    var routeMetadata := AnalyzeRouteFrequency(activities, decode, dist);
    var newAreasExplored := NewAreas(routeMetadata);
    NewAreasAtMostActivities(activities, decode, dist);

    summary := PersonalizedSummary(
      Round(totalDistance),
      totalActivities,
      longestRun,
      favoriteMonth,
      Round(totalElevation),
      newAreasExplored);
  }
}
