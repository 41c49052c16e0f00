/**
 * Route classification (new versus repeated areas), the longest activity,
 * the map bounds and the route style selectors.
 *
 * The polyline decoder and the haversine distance are parameters: the
 * decoder is an outside library and the distance is floating-point
 * trigonometry; nothing here depends on how either is computed.
 */
module RouteAnalysis {

  import opened Strava

  /** `mapboxPolyline.decode`: the decoded points, or None when it throws. */
  type Decoder = string -> Option<seq<Point>>

  /** `haversineDistance(center, area)`, in metres. */
  type Distance = (Point, Point) -> real

  /** `PROXIMITY_THRESHOLD`: closer than this (strictly) is the same area. */
  const ProximityThreshold: real := 100.0

  const NewColor: string := "#10b981"
  const RepeatedColor: string := "#6b7280"
  const LongestColor: string := "#f59e0b"

  /** `RouteMetadata`, one per activity id. */
  datatype RouteMetadata = RouteMetadata(
    id: int,
    isNew: bool,
    visitCount: nat,
    color: string,
    opacity: real,
    weight: int)

  /** An entry of `visitedAreas`: a route center and how often it was visited. */
  datatype VisitedArea = VisitedArea(center: Point, count: nat)

  function NewRoute(id: int): RouteMetadata
  {
    RouteMetadata(id, true, 1, NewColor, 0.8, 3)
  }

  function RepeatedRoute(id: int, count: nat): RouteMetadata
  {
    RouteMetadata(id, false, count, RepeatedColor, 0.4, 2)
  }

  /**
   * The metadata the classification produces: a new route is drawn in the
   * "new" style with count 1; a repeated one in the "repeated" style, having
   * been seen at least twice.
   */
  predicate Styled(m: RouteMetadata)
  {
    if m.isNew then m == NewRoute(m.id)
    else m == RepeatedRoute(m.id, m.visitCount) && m.visitCount >= 2
  }

  // ---------------------------------------------------------------------
  // getRouteCenter
  // ---------------------------------------------------------------------

  /** The decoded point at index floor(n/2); None for an empty or failed decode. */
  function GetRouteCenter(polyline: string, decode: Decoder): (r: Option<Point>)
    ensures r.None? <==> decode(polyline).None? || decode(polyline).value == []
    ensures r.Some? ==> r.value in decode(polyline).value
    ensures r.Some? ==>
      var pts := decode(polyline).value;
      |pts| / 2 < |pts| && r.value == pts[|pts| / 2]
  {
    match decode(polyline)
    case None => None
    case Some(pts) => if |pts| == 0 then None else Some(pts[|pts| / 2])
  }

  /** The center `analyzeRouteFrequency` uses: none without a polyline. */
  function RouteCenter(a: Activity, decode: Decoder): Option<Point>
  {
    if HasPolyline(a) then GetRouteCenter(a.summaryPolyline.value, decode) else None
  }

  // ---------------------------------------------------------------------
  // analyzeRouteFrequency
  // ---------------------------------------------------------------------

  /** `visitedAreas.find(...)`: the first area strictly closer than the threshold. */
  function FirstNearby(areas: seq<VisitedArea>, c: Point, dist: Distance): (r: Option<nat>)
    ensures r.Some? ==> r.value < |areas| && dist(c, areas[r.value].center) < ProximityThreshold
    ensures r.Some? ==>
      forall j :: 0 <= j < r.value ==> dist(c, areas[j].center) >= ProximityThreshold
    ensures r.None? ==>
      forall j :: 0 <= j < |areas| ==> dist(c, areas[j].center) >= ProximityThreshold
    decreases |areas|
  {
    if areas == [] then None
    else if dist(c, areas[0].center) < ProximityThreshold then Some(0)
    else match FirstNearby(areas[1..], c, dist)
      case None => None
      case Some(k) => Some(k + 1)
  }

  /** One iteration of the `forEach`: the new area list and the activity's metadata. */
  function Step(areas: seq<VisitedArea>, a: Activity, decode: Decoder, dist: Distance)
    : (seq<VisitedArea>, RouteMetadata)
  {
    match RouteCenter(a, decode)
    case None => (areas, NewRoute(a.id))
    case Some(c) =>
      match FirstNearby(areas, c, dist)
      case Some(k) =>
        var bumped := areas[k := areas[k].(count := areas[k].count + 1)];
        (bumped, RepeatedRoute(a.id, bumped[k].count))
      case None => (areas + [VisitedArea(c, 1)], NewRoute(a.id))
  }

  lemma StepWithoutCenter(areas: seq<VisitedArea>, a: Activity, decode: Decoder, dist: Distance)
    requires RouteCenter(a, decode).None?
    ensures Step(areas, a, decode, dist) == (areas, NewRoute(a.id))
  {
  }

  /**
   * The first area strictly within the threshold gains exactly one visit,
   * nothing else changes, and the activity is a repeat with that count.
   */
  lemma StepOnMatch(areas: seq<VisitedArea>, a: Activity, decode: Decoder, dist: Distance, i: nat)
    requires RouteCenter(a, decode).Some?
    requires i < |areas| && dist(RouteCenter(a, decode).value, areas[i].center) < ProximityThreshold
    requires forall j :: 0 <= j < i ==>
      dist(RouteCenter(a, decode).value, areas[j].center) >= ProximityThreshold
    ensures var after, m := Step(areas, a, decode, dist).0, Step(areas, a, decode, dist).1;
      && |after| == |areas|
      && after[i] == areas[i].(count := areas[i].count + 1)
      && (forall j :: 0 <= j < |areas| && j != i ==> after[j] == areas[j])
      && m == RepeatedRoute(a.id, areas[i].count + 1)
  {
  }

  /** No area within the threshold: one new area with count 1 is appended. */
  lemma StepOnNoMatch(areas: seq<VisitedArea>, a: Activity, decode: Decoder, dist: Distance)
    requires RouteCenter(a, decode).Some?
    requires forall j :: 0 <= j < |areas| ==>
      dist(RouteCenter(a, decode).value, areas[j].center) >= ProximityThreshold
    ensures Step(areas, a, decode, dist)
         == (areas + [VisitedArea(RouteCenter(a, decode).value, 1)], NewRoute(a.id))
  {
  }

  /** The state of one classification pass. */
  datatype Pass = Pass(areas: seq<VisitedArea>, metadata: map<int, RouteMetadata>)

  /** The pass over `s` in the given order. */
  function Run(s: seq<Activity>, decode: Decoder, dist: Distance): Pass
    decreases |s|
  {
    if s == [] then Pass([], map[])
    else
      var before := Run(s[..|s| - 1], decode, dist);
      var a := s[|s| - 1];
      var (areas, m) := Step(before.areas, a, decode, dist);
      Pass(areas, before.metadata[a.id := m])
  }

  /** One more activity of `s` is one more step of the pass. */
  lemma RunOneMore(s: seq<Activity>, i: nat, decode: Decoder, dist: Distance)
    requires i < |s|
    ensures var before := Run(s[..i], decode, dist);
      var (areas, m) := Step(before.areas, s[i], decode, dist);
      Run(s[..i + 1], decode, dist) == Pass(areas, before.metadata[s[i].id := m])
  {
    assert s[..i + 1][..i] == s[..i];
  }

  /** What `analyzeRouteFrequency` returns: the pass over the chronological copy. */
  function RouteFrequency(activities: seq<Activity>, decode: Decoder, dist: Distance)
    : map<int, RouteMetadata>
  {
    Run(SortByStart(activities), decode, dist).metadata
  }

  /** How many activities of `s` have a center. */
  function WithCenter(s: seq<Activity>, decode: Decoder): nat
    decreases |s|
  {
    if s == [] then 0
    else WithCenter(s[..|s| - 1], decode) + (if RouteCenter(s[|s| - 1], decode).Some? then 1 else 0)
  }

  /** How many activities of `s`, processed in order, have a center and are classified new. */
  function NewWithCenter(s: seq<Activity>, decode: Decoder, dist: Distance): nat
    decreases |s|
  {
    if s == [] then 0
    else
      var a := s[|s| - 1];
      var isNew := Step(Run(s[..|s| - 1], decode, dist).areas, a, decode, dist).1.isNew;
      NewWithCenter(s[..|s| - 1], decode, dist)
        + (if RouteCenter(a, decode).Some? && isNew then 1 else 0)
  }

  function TotalVisits(areas: seq<VisitedArea>): nat
  {
    if areas == [] then 0 else areas[0].count + TotalVisits(areas[1..])
  }

  lemma {:induction false} TotalVisitsBump(areas: seq<VisitedArea>, i: nat)
    requires i < |areas|
    ensures TotalVisits(areas[i := areas[i].(count := areas[i].count + 1)]) == TotalVisits(areas) + 1
  {
    if i > 0 {
      var bumped := areas[i := areas[i].(count := areas[i].count + 1)];
      assert bumped[1..] == areas[1..][i - 1 := areas[i].(count := areas[i].count + 1)];
      TotalVisitsBump(areas[1..], i - 1);
    }
  }

  lemma {:induction false} TotalVisitsAppend(areas: seq<VisitedArea>, v: VisitedArea)
    ensures TotalVisits(areas + [v]) == TotalVisits(areas) + v.count
  {
    if areas == [] {
      assert [v][1..] == [];
    } else {
      assert (areas + [v])[1..] == areas[1..] + [v];
      TotalVisitsAppend(areas[1..], v);
    }
  }

  predicate AllVisited(areas: seq<VisitedArea>)
  {
    forall i :: 0 <= i < |areas| ==> areas[i].count >= 1
  }

  /**
   * The invariants of the loop over the areas: every area has been
   * visited, there are as many areas as activities with a center that were
   * classified new, and the visits add up to the number of activities with
   * a center.
   */
  lemma {:induction false} RunAreas(s: seq<Activity>, decode: Decoder, dist: Distance)
    ensures var p := Run(s, decode, dist);
      && AllVisited(p.areas)
      && |p.areas| == NewWithCenter(s, decode, dist)
      && TotalVisits(p.areas) == WithCenter(s, decode)
    decreases |s|
  {
    if s != [] {
      var init, a := s[..|s| - 1], s[|s| - 1];
      RunAreas(init, decode, dist);
      StepAreas(Run(init, decode, dist).areas, a, decode, dist);
    }
  }

  /**
   * One step keeps every area visited, adds an area exactly for a new
   * activity with a center, and adds one visit exactly for an activity with
   * a center.
   */
  lemma StepAreas(areas: seq<VisitedArea>, a: Activity, decode: Decoder, dist: Distance)
    requires AllVisited(areas)
    ensures var after, m := Step(areas, a, decode, dist).0, Step(areas, a, decode, dist).1;
      && AllVisited(after)
      && |after| == |areas| + (if RouteCenter(a, decode).Some? && m.isNew then 1 else 0)
      && TotalVisits(after) == TotalVisits(areas) + (if RouteCenter(a, decode).Some? then 1 else 0)
  {
    match RouteCenter(a, decode)
    case None =>
      StepWithoutCenter(areas, a, decode, dist);
    case Some(c) =>
      StepAreasAt(areas, a, c, decode, dist);
  }

  /** The case of `StepAreas` where the activity has the center `c`. */
  lemma StepAreasAt(areas: seq<VisitedArea>, a: Activity, c: Point, decode: Decoder, dist: Distance)
    requires AllVisited(areas)
    requires RouteCenter(a, decode) == Some(c)
    ensures var after, m := Step(areas, a, decode, dist).0, Step(areas, a, decode, dist).1;
      && AllVisited(after)
      && |after| == |areas| + (if m.isNew then 1 else 0)
      && TotalVisits(after) == TotalVisits(areas) + 1
  {
    match FirstNearby(areas, c, dist)
    case Some(k) =>
      StepOnMatch(areas, a, decode, dist, k);
      TotalVisitsBump(areas, k);
    case None =>
      TotalVisitsAppend(areas, VisitedArea(c, 1));
      StepOnNoMatch(areas, a, decode, dist);
  }


  /** Every id processed has an entry, and only those. */
  lemma {:induction false} RunKeys(s: seq<Activity>, decode: Decoder, dist: Distance)
    ensures Run(s, decode, dist).metadata.Keys == set a | a in s :: a.id
    decreases |s|
  {
    if s != [] {
      var init, a := s[..|s| - 1], s[|s| - 1];
      RunKeys(init, decode, dist);
      assert s == init + [a];
      assert (set x | x in s :: x.id) == (set x | x in init :: x.id) + {a.id};
    }
  }

  /** Every entry is styled as its class says and carries its own id. */
  lemma {:induction false} RunStyled(s: seq<Activity>, decode: Decoder, dist: Distance)
    ensures var m := Run(s, decode, dist).metadata;
      forall id :: id in m ==> Styled(m[id]) && m[id].id == id
    decreases |s|
  {
    if s != [] {
      var init, a := s[..|s| - 1], s[|s| - 1];
      RunStyled(init, decode, dist);
      RunAreas(init, decode, dist);
      var before := Run(init, decode, dist);
      match RouteCenter(a, decode)
      case None =>
        StepWithoutCenter(before.areas, a, decode, dist);
      case Some(c) =>
        match FirstNearby(before.areas, c, dist)
        case Some(k) =>
          StepOnMatch(before.areas, a, decode, dist, k);
        case None =>
          StepOnNoMatch(before.areas, a, decode, dist);
    }
  }

  /** Every input id gets an entry, and each entry is styled by its class. */
  lemma RouteFrequencyEntries(activities: seq<Activity>, decode: Decoder, dist: Distance)
    ensures RouteFrequency(activities, decode, dist).Keys == set a | a in activities :: a.id
    ensures var m := RouteFrequency(activities, decode, dist);
      forall id :: id in m ==> Styled(m[id]) && m[id].id == id
  {
    var sorted := SortByStart(activities);
    RunKeys(sorted, decode, dist);
    RunStyled(sorted, decode, dist);
    SortKeepsMembers(activities);
    assert (set a | a in sorted :: a.id) == set a | a in activities :: a.id;
  }

  /**
   * `analyzeRouteFrequency`: walks a chronologically sorted copy keeping an
   * ordered list of visited areas, and gives every activity id an entry.
   */
  method AnalyzeRouteFrequency(activities: seq<Activity>, decode: Decoder, dist: Distance)
    returns (metadata: map<int, RouteMetadata>)
    ensures metadata == RouteFrequency(activities, decode, dist)
    ensures metadata.Keys == set a | a in activities :: a.id
    ensures forall id :: id in metadata ==> Styled(metadata[id]) && metadata[id].id == id
  {
    var sorted := SortByStart(activities);
    var visitedAreas: seq<VisitedArea> := [];
    metadata := map[];
    var i := 0;
    while i < |sorted|
      invariant 0 <= i <= |sorted|
      invariant Pass(visitedAreas, metadata) == Run(sorted[..i], decode, dist)
    {
      var activity := sorted[i];
      RunOneMore(sorted, i, decode, dist);
      var route;
      visitedAreas, route := ClassifyActivity(visitedAreas, activity, decode, dist);
      metadata := metadata[activity.id := route];
      i := i + 1;
    }
    assert sorted[..|sorted|] == sorted;
    RouteFrequencyEntries(activities, decode, dist);
  }

  /**
   * The body of the `forEach`: the activity's metadata, and the area list
   * after it (a match gains one visit, a new center is appended).
   */
  method ClassifyActivity(visitedAreas: seq<VisitedArea>, activity: Activity, decode: Decoder, dist: Distance)
    returns (areas: seq<VisitedArea>, route: RouteMetadata)
    ensures (areas, route) == Step(visitedAreas, activity, decode, dist)
  {
    areas := visitedAreas;
    if !HasPolyline(activity) {
      route := NewRoute(activity.id);
      return;
    }
    var center := GetRouteCenter(activity.summaryPolyline.value, decode);
    if center.None? {
      route := NewRoute(activity.id);
      return;
    }
    var nearbyArea := FirstNearby(visitedAreas, center.value, dist);
    if nearbyArea.Some? {
      var k := nearbyArea.value;
      areas := areas[k := areas[k].(count := areas[k].count + 1)];
      route := RepeatedRoute(activity.id, areas[k].count);
    } else {
      areas := areas + [VisitedArea(center.value, 1)];
      route := NewRoute(activity.id);
    }
  }

  /** An activity centered on the only visited area's center repeats it. */
  lemma RepeatOnlyArea(p: Point, n: nat, x: Activity, decode: Decoder, dist: Distance)
    requires RouteCenter(x, decode) == Some(p)
    requires dist(p, p) < ProximityThreshold
    ensures Step([VisitedArea(p, n)], x, decode, dist) == ([VisitedArea(p, n + 1)], RepeatedRoute(x.id, n + 1))
  {
    var areas := [VisitedArea(p, n)];
    assert FirstNearby(areas, p, dist) == Some(0);
    assert areas[0 := areas[0].(count := n + 1)] == [VisitedArea(p, n + 1)];
  }

  /** The first activity with a center opens the first area. */
  lemma FirstVisit(a: Activity, p: Point, decode: Decoder, dist: Distance)
    requires RouteCenter(a, decode) == Some(p)
    ensures Run([a], decode, dist) == Pass([VisitedArea(p, 1)], map[a.id := NewRoute(a.id)])
  {
    assert [a][..0] == [];
    StepOnNoMatch([], a, decode, dist);
  }

  /** While one area is all there is, an activity centered on it is its next visit. */
  lemma NextVisit(s: seq<Activity>, x: Activity, p: Point, n: nat,
                  m: map<int, RouteMetadata>, decode: Decoder, dist: Distance)
    requires Run(s, decode, dist) == Pass([VisitedArea(p, n)], m)
    requires RouteCenter(x, decode) == Some(p)
    requires dist(p, p) < ProximityThreshold
    ensures Run(s + [x], decode, dist)
         == Pass([VisitedArea(p, n + 1)], m[x.id := RepeatedRoute(x.id, n + 1)])
  {
    assert (s + [x])[..|s|] == s;
    RepeatOnlyArea(p, n, x, decode, dist);
  }

  lemma {:induction false} SameAreaRun(a: Activity, b: Activity, c: Activity, decode: Decoder, dist: Distance)
    requires RouteCenter(a, decode).Some?
    requires RouteCenter(b, decode) == RouteCenter(a, decode) == RouteCenter(c, decode)
    requires dist(RouteCenter(a, decode).value, RouteCenter(a, decode).value) < ProximityThreshold
    requires a.id != b.id && b.id != c.id && a.id != c.id
    ensures var m := Run([a, b, c], decode, dist).metadata;
      && a.id in m && m[a.id] == NewRoute(a.id)
      && b.id in m && m[b.id] == RepeatedRoute(b.id, 2)
      && c.id in m && m[c.id] == RepeatedRoute(c.id, 3)
    ensures Run([a, b, c], decode, dist).areas == [VisitedArea(RouteCenter(a, decode).value, 3)]
  {
    var p := RouteCenter(a, decode).value;
    var m1 := map[a.id := NewRoute(a.id)];
    var m2 := m1[b.id := RepeatedRoute(b.id, 2)];
    FirstVisit(a, p, decode, dist);
    NextVisit([a], b, p, 1, m1, decode, dist);
    assert [a] + [b] == [a, b];
    NextVisit([a, b], c, p, 2, m2, decode, dist);
    assert [a, b] + [c] == [a, b, c];
  }

  /**
   * Three activities whose routes share one center are new, then repeated
   * with count 2, then with count 3, in start order whatever the list order;
   * they leave one area visited three times.
   */
  lemma SameAreaScenario(s: seq<Activity>, a: Activity, b: Activity, c: Activity, decode: Decoder, dist: Distance)
    requires multiset(s) == multiset([a, b, c])
    requires RouteCenter(a, decode).Some?
    requires RouteCenter(b, decode) == RouteCenter(a, decode) == RouteCenter(c, decode)
    requires dist(RouteCenter(a, decode).value, RouteCenter(a, decode).value) < ProximityThreshold
    requires a.startTime < b.startTime < c.startTime
    requires a.id != b.id && b.id != c.id && a.id != c.id
    ensures var m := RouteFrequency(s, decode, dist);
      && a.id in m && m[a.id] == NewRoute(a.id)
      && b.id in m && m[b.id] == RepeatedRoute(b.id, 2)
      && c.id in m && m[c.id] == RepeatedRoute(c.id, 3)
    ensures Run(SortByStart(s), decode, dist).areas == [VisitedArea(RouteCenter(a, decode).value, 3)]
  {
    SortedUnique(SortByStart(s), [a, b, c]);
    SameAreaRun(a, b, c, decode, dist);
  }

  /**
   * The classification does not depend on the order of the input list when
   * no two activities start at the same time: any rearrangement is sorted
   * back to the same chronological list. (With equal start times the stable
   * sort keeps the input order, so the statement needs distinct times.)
   */
  lemma RouteFrequencyOrderFree(s: seq<Activity>, t: seq<Activity>, decode: Decoder, dist: Distance)
    requires multiset(t) == multiset(s)
    requires forall i, j :: 0 <= i < j < |s| ==> s[i].startTime < s[j].startTime
    ensures RouteFrequency(t, decode, dist) == RouteFrequency(s, decode, dist)
    ensures Run(SortByStart(t), decode, dist) == Run(SortByStart(s), decode, dist)
  {
    SortOfChronological(s);
    SortedUnique(SortByStart(t), s);
  }

  /**
   * A second route whose center is exactly the threshold away from the first
   * is not a repeat: both are new and there are two areas.
   */
  lemma ThresholdIsStrict(a: Activity, b: Activity, decode: Decoder, dist: Distance)
    requires RouteCenter(a, decode).Some? && RouteCenter(b, decode).Some?
    requires dist(RouteCenter(b, decode).value, RouteCenter(a, decode).value) == ProximityThreshold
    requires a.id != b.id
    ensures var p := Run([a, b], decode, dist);
      && a.id in p.metadata && p.metadata[a.id] == NewRoute(a.id)
      && b.id in p.metadata && p.metadata[b.id] == NewRoute(b.id)
      && p.areas == [VisitedArea(RouteCenter(a, decode).value, 1), VisitedArea(RouteCenter(b, decode).value, 1)]
  {
    var s := [a, b];
    assert s[..|s| - 1] == [a] && [a][..0] == [];
    assert Run([], decode, dist) == Pass([], map[]);
    StepOnNoMatch([], a, decode, dist);
    var r1 := Run([a], decode, dist);
    assert r1.areas == [VisitedArea(RouteCenter(a, decode).value, 1)];
    assert FirstNearby(r1.areas, RouteCenter(b, decode).value, dist) == None by {
      assert r1.areas[1..] == [];
    }
  }

  // ---------------------------------------------------------------------
  // findLongestRun
  // ---------------------------------------------------------------------

  /** The index the `reduce` keeps: the first activity of maximal distance. */
  function LongestIndex(s: seq<Activity>): (k: nat)
    requires s != []
    ensures k < |s|
    ensures forall j :: 0 <= j < |s| ==> s[j].distance <= s[k].distance
    ensures forall j :: 0 <= j < k ==> s[j].distance < s[k].distance
    decreases |s|
  {
    if |s| == 1 then 0
    else
      var k := LongestIndex(s[..|s| - 1]);
      if s[|s| - 1].distance > s[k].distance then |s| - 1 else k
  }

  /** `findLongestRun`: null exactly for an empty list, else the earliest longest activity. */
  function FindLongestRun(s: seq<Activity>): (r: Option<Activity>)
    ensures r.None? <==> s == []
    ensures r.Some? ==> r.value in s && forall a :: a in s ==> a.distance <= r.value.distance
    ensures r.Some? ==>
      exists k :: 0 <= k < |s| && s[k] == r.value
        && forall j :: 0 <= j < k ==> s[j].distance < r.value.distance
  {
    if s == [] then None
    else
      var k := LongestIndex(s);
      assert forall a :: a in s ==> exists j :: 0 <= j < |s| && s[j] == a;
      Some(s[k])
  }

  // ---------------------------------------------------------------------
  // calculateMapBounds
  // ---------------------------------------------------------------------

  datatype MapBounds = MapBounds(minLat: real, maxLat: real, minLng: real, maxLng: real)

  /** The points an activity contributes: none without a polyline or when decoding throws. */
  function RoutePoints(a: Activity, decode: Decoder): seq<Point>
  {
    if !HasPolyline(a) then []
    else match decode(a.summaryPolyline.value)
      case None => []
      case Some(pts) => pts
  }

  function AllPoints(s: seq<Activity>, decode: Decoder): seq<Point>
    decreases |s|
  {
    if s == [] then [] else AllPoints(s[..|s| - 1], decode) + RoutePoints(s[|s| - 1], decode)
  }

  predicate Encloses(b: MapBounds, p: Point)
  {
    b.minLat <= p.lat <= b.maxLat && b.minLng <= p.lng <= b.maxLng
  }

  /** `b` is the smallest box around `pts`: it encloses them all and each side touches one. */
  ghost predicate IsBoundingBox(b: MapBounds, pts: seq<Point>)
  {
    && (forall p :: p in pts ==> Encloses(b, p))
    && (exists p :: p in pts && p.lat == b.minLat)
    && (exists p :: p in pts && p.lat == b.maxLat)
    && (exists p :: p in pts && p.lng == b.minLng)
    && (exists p :: p in pts && p.lng == b.maxLng)
  }

  function Min(x: real, y: real): real { if x <= y then x else y }
  function Max(x: real, y: real): real { if x >= y then x else y }

  lemma ExtendBox(b: MapBounds, pts: seq<Point>, p: Point)
    requires IsBoundingBox(b, pts)
    ensures IsBoundingBox(
      MapBounds(Min(b.minLat, p.lat), Max(b.maxLat, p.lat), Min(b.minLng, p.lng), Max(b.maxLng, p.lng)),
      pts + [p])
  {
    var e := MapBounds(Min(b.minLat, p.lat), Max(b.maxLat, p.lat), Min(b.minLng, p.lng), Max(b.maxLng, p.lng));
    var q1 :| q1 in pts && q1.lat == b.minLat;
    var q2 :| q2 in pts && q2.lat == b.maxLat;
    var q3 :| q3 in pts && q3.lng == b.minLng;
    var q4 :| q4 in pts && q4.lng == b.maxLng;
    assert p in pts + [p];
    assert q1 in pts + [p] && q2 in pts + [p] && q3 in pts + [p] && q4 in pts + [p];
  }

  /** The box `hasValidData`, `minLat`, ..., `maxLng` stand for while `seen` has been folded in. */
  ghost predicate Folded(hasValidData: bool, box: MapBounds, seen: seq<Point>)
  {
    (hasValidData <==> seen != []) && (hasValidData ==> IsBoundingBox(box, seen))
  }

  /**
   * The inner `decoded.forEach` of `calculateMapBounds`: widens the box by
   * every point (the first point seen sets it, as `Math.min(Infinity, lat)`
   * and `Math.max(-Infinity, lat)` would).
   */
  method FoldPoints(hasValidData: bool, box: MapBounds, pts: seq<Point>, ghost seen: seq<Point>)
    returns (hasValidData': bool, box': MapBounds)
    requires Folded(hasValidData, box, seen)
    ensures Folded(hasValidData', box', seen + pts)
  {
    hasValidData', box' := hasValidData, box;
    var minLat, maxLat, minLng, maxLng := box.minLat, box.maxLat, box.minLng, box.maxLng;
    for j := 0 to |pts|
      invariant box' == MapBounds(minLat, maxLat, minLng, maxLng)
      invariant Folded(hasValidData', box', seen + pts[..j])
    {
      var p := pts[j];
      assert (seen + pts[..j]) + [p] == seen + pts[..j + 1];
      if hasValidData' {
        ExtendBox(box', seen + pts[..j], p);
        minLat, maxLat := Min(minLat, p.lat), Max(maxLat, p.lat);
        minLng, maxLng := Min(minLng, p.lng), Max(maxLng, p.lng);
      } else {
        minLat, maxLat, minLng, maxLng := p.lat, p.lat, p.lng, p.lng;
        assert seen + pts[..j] == [];
        assert p in [p];
      }
      hasValidData' := true;
      box' := MapBounds(minLat, maxLat, minLng, maxLng);
    }
    assert pts[..|pts|] == pts;
  }

  /**
   * `calculateMapBounds`: null exactly when no activity yields a decoded
   * point, otherwise the smallest box around every decoded point.
   */
  method CalculateMapBounds(activities: seq<Activity>, decode: Decoder) returns (bounds: Option<MapBounds>)
    ensures bounds.None? <==> AllPoints(activities, decode) == []
    ensures bounds.Some? ==> IsBoundingBox(bounds.value, AllPoints(activities, decode))
    ensures bounds.Some? ==>
      bounds.value.minLat <= bounds.value.maxLat && bounds.value.minLng <= bounds.value.maxLng
  {
    var box := MapBounds(0.0, 0.0, 0.0, 0.0);
    var hasValidData := false;
    for i := 0 to |activities|
      invariant Folded(hasValidData, box, AllPoints(activities[..i], decode))
    {
      var activity := activities[i];
      assert activities[..i + 1][..i] == activities[..i];
      if HasPolyline(activity) {
        var decoded := decode(activity.summaryPolyline.value);
        if decoded.Some? {
          hasValidData, box := FoldPoints(hasValidData, box, decoded.value, AllPoints(activities[..i], decode));
        }
      }
    }
    assert activities[..|activities|] == activities;
    if !hasValidData {
      bounds := None;
    } else {
      bounds := Some(box);
      ghost var p :| p in AllPoints(activities, decode);
      assert Encloses(box, p);
    }
  }

  // ---------------------------------------------------------------------
  // getRouteColor, getRouteWeight, getRouteOpacity
  // ---------------------------------------------------------------------

  function GetRouteColor(m: RouteMetadata, isLongest: bool): string
  {
    if isLongest then LongestColor else m.color
  }

  function GetRouteWeight(m: RouteMetadata, isLongest: bool): int
  {
    if isLongest then 4 else m.weight
  }

  function GetRouteOpacity(m: RouteMetadata, isLongest: bool): real
  {
    if isLongest then 0.9 else m.opacity
  }

  /**
   * The longest run is drawn thicker and more opaque than any classified
   * route, in its own colour; among the others a new route stands out
   * against a repeated one.
   */
  lemma StyleOrdering(m: RouteMetadata, n: RouteMetadata)
    requires Styled(m) && Styled(n)
    ensures GetRouteWeight(m, true) > GetRouteWeight(n, false)
    ensures GetRouteOpacity(m, true) > GetRouteOpacity(n, false)
    ensures GetRouteColor(m, true) != GetRouteColor(n, false)
    ensures m.isNew && !n.isNew ==>
      GetRouteWeight(m, false) > GetRouteWeight(n, false)
      && GetRouteOpacity(m, false) > GetRouteOpacity(n, false)
      && GetRouteColor(m, false) != GetRouteColor(n, false)
  {
  }
}
