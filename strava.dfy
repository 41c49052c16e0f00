/**
 * The activity record the analytics work on, the chronological order every
 * time series is built in, and sums and month buckets over activity lists.
 */
module Strava {

  import Numbers

  datatype Option<T> = None | Some(value: T)

  /** A calendar month as `Date.getMonth` numbers it: 0 is January. */
  type MonthIndex = m: int | 0 <= m < 12

  const MonthShortNames: seq<string> :=
    ["Jan", "Feb", "Mar", "Apr", "May", "Jun", "Jul", "Aug", "Sep", "Oct", "Nov", "Dec"]

  const MonthNames: seq<string> :=
    ["January", "February", "March", "April", "May", "June",
     "July", "August", "September", "October", "November", "December"]

  /** A decoded route point `[lat, lng]`, in degrees. */
  datatype Point = Point(lat: real, lng: real)

  /**
   * `StravaActivity`. The fields the code derives by parsing dates are
   * carried already extracted: `startTime` is `new Date(start_date).getTime()`,
   * `localMonth` and `localHour` are `getMonth()` and `getHours()` of
   * `start_date_local`, `shortDate` is its `toLocaleDateString('en-US',
   * {month: 'short', day: 'numeric'})` and `localeDate` its
   * `toLocaleDateString()`. `summaryPolyline` is `map?.summary_polyline`.
   */
  datatype Activity = Activity(
    id: int,
    name: string,
    distance: real,             // metres
    movingTime: int,            // seconds
    elapsedTime: int,           // seconds
    totalElevationGain: real,   // metres
    kind: string,               // `type`
    startTime: int,
    startDateLocal: string,
    localMonth: MonthIndex,
    localHour: int,
    shortDate: string,
    localeDate: string,
    averageSpeed: real,         // metres per second
    summaryPolyline: Option<string>)

  /** `activity.map?.summary_polyline` is truthy: present and not the empty string. */
  predicate HasPolyline(a: Activity)
  {
    a.summaryPolyline.Some? && a.summaryPolyline.value != ""
  }

  // ---------------------------------------------------------------------
  // Chronological order: `[...activities].sort((a, b) => time(a) - time(b))`,
  // a stable sort of a copy.
  // ---------------------------------------------------------------------

  ghost predicate Chronological(s: seq<Activity>)
  {
    forall i, j :: 0 <= i < j < |s| ==> s[i].startTime <= s[j].startTime
  }

  /** Puts `x` after every element that does not start later than it. */
  function InsertByStart(t: seq<Activity>, x: Activity): (r: seq<Activity>)
    requires Chronological(t)
    ensures Chronological(r)
    ensures multiset(r) == multiset(t) + multiset{x}
    ensures |r| == |t| + 1
    ensures forall y :: y in r ==> y == x || y in t
    decreases |t|
  {
    if t == [] then [x]
    else if x.startTime < t[0].startTime then [x] + t
    else
      var rest := InsertByStart(t[1..], x);
      assert t == [t[0]] + t[1..];
      HeadStaysFirst(t, x, rest);
      [t[0]] + rest
  }

  /** The head of `t` can go before anything built from the rest of `t` and `x`. */
  lemma HeadStaysFirst(t: seq<Activity>, x: Activity, rest: seq<Activity>)
    requires Chronological(t) && t != [] && t[0].startTime <= x.startTime
    requires Chronological(rest)
    requires forall y :: y in rest ==> y == x || y in t[1..]
    ensures Chronological([t[0]] + rest)
  {
    forall j | 0 <= j < |rest| ensures t[0].startTime <= rest[j].startTime {
      if rest[j] != x {
        assert rest[j] in rest;
        var k :| 0 <= k < |t[1..]| && t[1..][k] == rest[j];
        assert t[k + 1] == rest[j];
      }
    }
  }

  /** The sorted copy the chronological series are built from. */
  function SortByStart(s: seq<Activity>): (r: seq<Activity>)
    ensures Chronological(r)
    ensures multiset(r) == multiset(s)
    ensures |r| == |s|
    decreases |s|
  {
    if s == [] then []
    else
      assert s == s[..|s| - 1] + [s[|s| - 1]];
      InsertByStart(SortByStart(s[..|s| - 1]), s[|s| - 1])
  }

  lemma SortKeepsMembers(s: seq<Activity>)
    ensures forall a :: a in SortByStart(s) <==> a in s
  {
    var r := SortByStart(s);
    assert forall a :: a in r <==> a in multiset(r);
    assert forall a :: a in s <==> a in multiset(s);
  }

  lemma {:induction false} InsertLatest(t: seq<Activity>, x: Activity)
    requires Chronological(t)
    requires forall i :: 0 <= i < |t| ==> t[i].startTime <= x.startTime
    ensures InsertByStart(t, x) == t + [x]
    decreases |t|
  {
    if t != [] {
      InsertLatest(t[1..], x);
      assert t == [t[0]] + t[1..];
    }
  }

  /** A list already in chronological order comes back unchanged. */
  lemma {:induction false} SortOfChronological(s: seq<Activity>)
    requires Chronological(s)
    ensures SortByStart(s) == s
    decreases |s|
  {
    if s != [] {
      var init, last := s[..|s| - 1], s[|s| - 1];
      SortOfChronological(init);
      InsertLatest(init, last);
      assert init + [last] == s;
    }
  }

  lemma SortTwo(a: Activity, c: Activity)
    requires a.startTime < c.startTime
    ensures SortByStart([c, a]) == [a, c]
  {
    assert [c, a][..1] == [c] && [c][..0] == [];
    assert SortByStart([c]) == [c];
  }

  /** Three activities given out of order come back in start order. */
  lemma SortThree(a: Activity, b: Activity, c: Activity)
    requires a.startTime < b.startTime < c.startTime
    ensures SortByStart([c, a, b]) == [a, b, c]
  {
    assert [c, a, b][..2] == [c, a];
    SortTwo(a, c);
    assert [a, c][1..] == [c];
    assert InsertByStart([c], b) == [b, c];
  }

  /**
   * When no two activities share a start time there is only one
   * chronological arrangement of them: any chronological permutation of a
   * strictly increasing list is that list.
   */
  lemma {:induction false} SortedUnique(r: seq<Activity>, q: seq<Activity>)
    requires Chronological(r) && multiset(r) == multiset(q)
    requires forall i, j :: 0 <= i < j < |q| ==> q[i].startTime < q[j].startTime
    ensures r == q
    decreases |q|
  {
    assert |r| == |multiset(r)| == |multiset(q)| == |q|;
    if q != [] {
      HeadsAgree(r, q);
      TailsPermuted(r, q);
      SortedUnique(r[1..], q[1..]);
      assert r == [r[0]] + r[1..] && q == [q[0]] + q[1..];
    }
  }

  /** Two permutations of each other with the same head permute their tails. */
  lemma TailsPermuted(r: seq<Activity>, q: seq<Activity>)
    requires r != [] && q != [] && r[0] == q[0] && multiset(r) == multiset(q)
    ensures multiset(r[1..]) == multiset(q[1..])
  {
    assert r == [r[0]] + r[1..] && q == [q[0]] + q[1..];
    assert multiset(r) == multiset{r[0]} + multiset(r[1..]);
    assert multiset(q) == multiset{q[0]} + multiset(q[1..]);
    forall x ensures multiset(r[1..])[x] == multiset(q[1..])[x] {
      assert multiset(r)[x] == multiset(q)[x];
    }
  }

  /** The first of a chronological permutation is the strictly earliest activity. */
  lemma HeadsAgree(r: seq<Activity>, q: seq<Activity>)
    requires Chronological(r) && multiset(r) == multiset(q) && q != []
    requires forall i, j :: 0 <= i < j < |q| ==> q[i].startTime < q[j].startTime
    ensures r != [] && r[0] == q[0]
  {
    assert q[0] in multiset(r);
    var k :| 0 <= k < |r| && r[k] == q[0];
    assert r[0] in multiset(q);
    var m :| 0 <= m < |q| && q[m] == r[0];
    assert r[0].startTime <= r[k].startTime;
    assert m == 0;
  }

  /** The activities of `s` that start at time `t`, in their order in `s`. */
  function StartingAt(s: seq<Activity>, t: int): seq<Activity>
  {
    if s == [] then []
    else (if s[0].startTime == t then [s[0]] else []) + StartingAt(s[1..], t)
  }

  lemma {:induction false} StartingAtConcat(s: seq<Activity>, u: seq<Activity>, t: int)
    ensures StartingAt(s + u, t) == StartingAt(s, t) + StartingAt(u, t)
  {
    if s == [] {
      assert s + u == u;
    } else {
      var hs := if s[0].startTime == t then [s[0]] else [];
      calc {
        StartingAt(s + u, t);
        { assert s + u == [s[0]] + (s[1..] + u); StartingAtCons(s[0], s[1..] + u, t); }
        hs + StartingAt(s[1..] + u, t);
        { StartingAtConcat(s[1..], u, t); }
        hs + (StartingAt(s[1..], t) + StartingAt(u, t));
        { ConcatAssoc(hs, StartingAt(s[1..], t), StartingAt(u, t)); }
        (hs + StartingAt(s[1..], t)) + StartingAt(u, t);
      }
    }
  }

  lemma {:induction false} NoneStartingAt(s: seq<Activity>, t: int)
    requires forall i :: 0 <= i < |s| ==> s[i].startTime > t
    ensures StartingAt(s, t) == []
  {
    if s != [] {
      NoneStartingAt(s[1..], t);
    }
  }

  lemma ConcatAssoc(a: seq<Activity>, b: seq<Activity>, c: seq<Activity>)
    ensures a + (b + c) == (a + b) + c
  {
  }

  lemma StartingAtCons(h: Activity, rest: seq<Activity>, t: int)
    ensures StartingAt([h] + rest, t) == (if h.startTime == t then [h] else []) + StartingAt(rest, t)
  {
    assert ([h] + rest)[1..] == rest;
  }

  lemma {:induction false} InsertKeepsTies(u: seq<Activity>, x: Activity, t: int)
    requires Chronological(u)
    ensures StartingAt(InsertByStart(u, x), t)
         == StartingAt(u, t) + (if x.startTime == t then [x] else [])
    decreases |u|
  {
    var xs := if x.startTime == t then [x] else [];
    if u == [] {
      StartingAtCons(x, [], t);
    } else if x.startTime < u[0].startTime {
      if x.startTime == t {
        NoneStartingAt(u, t);
      }
      assert InsertByStart(u, x) == [x] + u;
      StartingAtCons(x, u, t);
    } else {
      var rest := InsertByStart(u[1..], x);
      assert InsertByStart(u, x) == [u[0]] + rest;
      InsertKeepsTies(u[1..], x, t);
      HeadKeepsTies(u, rest, xs, t);
    }
  }

  /** Putting the head of `u` back in front keeps the ties of `u` in order. */
  lemma HeadKeepsTies(u: seq<Activity>, rest: seq<Activity>, xs: seq<Activity>, t: int)
    requires u != []
    requires StartingAt(rest, t) == StartingAt(u[1..], t) + xs
    ensures StartingAt([u[0]] + rest, t) == StartingAt(u, t) + xs
  {
    var hs := if u[0].startTime == t then [u[0]] else [];
    calc {
      StartingAt([u[0]] + rest, t);
      { StartingAtCons(u[0], rest, t); }
      hs + StartingAt(rest, t);
      hs + (StartingAt(u[1..], t) + xs);
      { ConcatAssoc(hs, StartingAt(u[1..], t), xs); }
      (hs + StartingAt(u[1..], t)) + xs;
      StartingAt(u, t) + xs;
    }
  }

  /**
   * The sort is stable: activities that start at the same time keep their
   * input order.
   */
  lemma {:induction false} SortIsStable(s: seq<Activity>, t: int)
    ensures StartingAt(SortByStart(s), t) == StartingAt(s, t)
    decreases |s|
  {
    if s != [] {
      var init, last := s[..|s| - 1], s[|s| - 1];
      SortIsStable(init, t);
      InsertKeepsTies(SortByStart(init), last, t);
      StartingAtSnoc(s, t);
    }
  }

  lemma StartingAtSnoc(s: seq<Activity>, t: int)
    requires s != []
    ensures StartingAt(s, t) == StartingAt(s[..|s| - 1], t)
         + (if s[|s| - 1].startTime == t then [s[|s| - 1]] else [])
  {
    var init, last := s[..|s| - 1], s[|s| - 1];
    assert [last][1..] == [];
    assert StartingAt([last], t) == (if last.startTime == t then [last] else []);
    StartingAtConcat(init, [last], t);
    assert init + [last] == s;
  }

  // ---------------------------------------------------------------------
  // Sums over activity lists, the `reduce((sum, a) => sum + f(a), 0)` idiom
  // ---------------------------------------------------------------------

  function SumBy(s: seq<Activity>, f: Activity -> real): real
    decreases |s|
  {
    if s == [] then 0.0 else SumBy(s[..|s| - 1], f) + f(s[|s| - 1])
  }

  /** One more activity adds its value to the running total. */
  lemma SumByStep(s: seq<Activity>, f: Activity -> real, i: nat)
    requires i < |s|
    ensures SumBy(s[..i + 1], f) == SumBy(s[..i], f) + f(s[i])
  {
    assert s[..i + 1][..i] == s[..i];
  }

  function Km(a: Activity): real { a.distance / 1000.0 }
  function Metres(a: Activity): real { a.distance }
  function Gain(a: Activity): real { a.totalElevationGain }

  lemma {:induction false} SumByConcat(s: seq<Activity>, u: seq<Activity>, f: Activity -> real)
    ensures SumBy(s + u, f) == SumBy(s, f) + SumBy(u, f)
    decreases |u|
  {
    if u == [] {
      assert s + u == s;
    } else {
      assert (s + u)[..|s + u| - 1] == s + u[..|u| - 1];
      SumByConcat(s, u[..|u| - 1], f);
    }
  }

  lemma {:induction false} InsertKeepsSum(u: seq<Activity>, x: Activity, f: Activity -> real)
    requires Chronological(u)
    ensures SumBy(InsertByStart(u, x), f) == SumBy(u, f) + f(x)
    decreases |u|
  {
    if u == [] {
      assert SumBy([x], f) == SumBy([], f) + f(x);
    } else if x.startTime < u[0].startTime {
      SumByConcat([x], u, f);
      assert SumBy([x], f) == SumBy([], f) + f(x);
    } else {
      InsertKeepsSum(u[1..], x, f);
      SumByConcat([u[0]], InsertByStart(u[1..], x), f);
      SumByConcat([u[0]], u[1..], f);
      assert u == [u[0]] + u[1..];
    }
  }

  /** Sorting does not change a total. */
  lemma {:induction false} SortKeepsSum(s: seq<Activity>, f: Activity -> real)
    ensures SumBy(SortByStart(s), f) == SumBy(s, f)
    decreases |s|
  {
    if s != [] {
      SortKeepsSum(s[..|s| - 1], f);
      InsertKeepsSum(SortByStart(s[..|s| - 1]), s[|s| - 1], f);
    }
  }

  /** With no negative term, a running total never decreases. */
  lemma {:induction false} RunningTotalGrows(s: seq<Activity>, f: Activity -> real, i: nat, j: nat)
    requires i <= j <= |s|
    requires forall a :: a in s ==> f(a) >= 0.0
    ensures SumBy(s[..i], f) <= SumBy(s[..j], f)
    decreases j
  {
    if i < j {
      RunningTotalGrows(s, f, i, j - 1);
      assert s[..j][..j - 1] == s[..j - 1];
      assert s[j - 1] in s;
    }
  }

  // ---------------------------------------------------------------------
  // Month buckets: `new Array(12).fill(0)` and `array[getMonth()]++`
  // ---------------------------------------------------------------------

  /** Twelve counters, one per calendar month. */
  function MonthlyCounts(s: seq<Activity>): (q: seq<nat>)
    ensures |q| == 12
    decreases |s|
  {
    if s == [] then seq(12, _ => 0)
    else
      var q := MonthlyCounts(s[..|s| - 1]);
      var m := s[|s| - 1].localMonth;
      q[m := q[m] + 1]
  }

  /** Every activity is counted in exactly one month. */
  lemma {:induction false} MonthlyCountsAddUp(s: seq<Activity>)
    ensures Numbers.Sum(MonthlyCounts(s)) == |s|
    decreases |s|
  {
    if s == [] {
      var z := MonthlyCounts(s);
      Numbers.SumOfZeros(z);
    } else {
      MonthlyCountsAddUp(s[..|s| - 1]);
      var q := MonthlyCounts(s[..|s| - 1]);
      var m := s[|s| - 1].localMonth;
      Numbers.SumUpdate(q, m, 1);
    }
  }

  /** Twelve distance totals in km, one per calendar month. */
  function MonthlyKm(s: seq<Activity>): (q: seq<real>)
    ensures |q| == 12
    decreases |s|
  {
    if s == [] then seq(12, _ => 0.0)
    else
      var q := MonthlyKm(s[..|s| - 1]);
      var m := s[|s| - 1].localMonth;
      q[m := q[m] + Km(s[|s| - 1])]
  }

  /** The month totals share out the whole distance. */
  lemma {:induction false} MonthlyKmAddsUp(s: seq<Activity>)
    ensures Numbers.SumReals(MonthlyKm(s)) == SumBy(s, Km)
    decreases |s|
  {
    if s == [] {
      var z := MonthlyKm(s);
      Numbers.SumRealsOfZeros(z);
    } else {
      MonthlyKmAddsUp(s[..|s| - 1]);
      var q := MonthlyKm(s[..|s| - 1]);
      var m := s[|s| - 1].localMonth;
      Numbers.SumRealsUpdate(q, m, Km(s[|s| - 1]));
    }
  }
}
