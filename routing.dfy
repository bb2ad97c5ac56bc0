/**
 * The routing service: the unsafe-zone registry, the route safety scorer,
 * the validation in front of the directions request, the conversion of the
 * provider's routes and the formatting helpers.
 */
module Routing {
  import opened Base
  import opened Geo
  import opened Text

  datatype Severity = Low | Medium | High

  /** A circular hazard area; `radius` is in metres. */
  datatype UnsafeZone = UnsafeZone(
    id: string,
    latitude: real,
    longitude: real,
    radius: real,
    severity: Severity,
    description: string)

  /** The fixed hazard catalogue the scorer reads. */
  const UnsafeZones: seq<UnsafeZone> := [
    UnsafeZone("uz1", 40.7580, -73.9855, 200.0, High, "High crime area - frequent incidents reported"),
    UnsafeZone("uz2", 40.7520, -73.9780, 150.0, Medium, "Poorly lit area at night"),
    UnsafeZone("uz3", 40.7650, -73.9700, 100.0, Low, "Isolated area with limited foot traffic"),
    UnsafeZone("uz4", 40.7480, -73.9920, 180.0, High, "Multiple harassment incidents reported"),
    UnsafeZone("uz5", 40.7700, -73.9600, 120.0, Medium, "Construction area with limited visibility"),
    UnsafeZone("uz6", 40.7550, -73.9650, 90.0, Low, "Narrow streets with minimal lighting")
  ]

  /** Every zone has a positive radius, so the proximity factor is defined. */
  predicate ValidZones(zones: seq<UnsafeZone>)
  {
    forall i :: 0 <= i < |zones| ==> zones[i].radius > 0.0
  }

  lemma UnsafeZonesValid()
    ensures |UnsafeZones| == 6 && ValidZones(UnsafeZones)
  {
  }

  function SeverityWeight(s: Severity): (w: int)
    ensures 1 <= w <= 3
    ensures (w == 3 <==> s == High) && (w == 2 <==> s == Medium) && (w == 1 <==> s == Low)
  {
    match s
    case High => 3
    case Medium => 2
    case Low => 1
  }

  /** A route as the page receives it; `safetyScore` is `None` while absent (or `NaN`). */
  datatype Route = Route(
    id: int,
    coordinates: seq<Position>,
    distance: real,
    duration: real,
    safetyScore: Option<int>)

  // ---------------------------------------------------------------------------
  // Safety scoring

  /** The ratio of a distance within the radius to the radius is a fraction, 1 exactly at the edge. */
  lemma RatioWithinRadius(d: real, r: real)
    requires 0.0 <= d <= r && r > 0.0
    ensures 0.0 <= d / r <= 1.0
    ensures d == r ==> d / r == 1.0
  {
    assert d / r * r == d;
  }

  /** The danger one route point adds for one zone. */
  function Contribution(lat: real, lon: real, zone: UnsafeZone, dist: DistanceFn): (c: real)
    requires zone.radius > 0.0 && NonNegative(dist)
    ensures 0.0 <= c <= 10.0 * SeverityWeight(zone.severity) as real
    ensures dist(lat, lon, zone.latitude, zone.longitude) >= zone.radius ==> c == 0.0
    ensures dist(lat, lon, zone.latitude, zone.longitude) < zone.radius ==> c > 0.0
  {
    var d := dist(lat, lon, zone.latitude, zone.longitude);
    if d <= zone.radius then
      var proximity := 1.0 - d / zone.radius;
      RatioWithinRadius(d, zone.radius);
      SeverityWeight(zone.severity) as real * proximity * 10.0
    else 0.0
  }

  /** The danger of one point summed over `zones`, in catalogue order. */
  function PointDanger(lat: real, lon: real, zones: seq<UnsafeZone>, dist: DistanceFn): (r: real)
    requires ValidZones(zones) && NonNegative(dist)
    ensures r >= 0.0
  {
    if |zones| == 0 then 0.0
    else PointDanger(lat, lon, zones[..|zones| - 1], dist) + Contribution(lat, lon, zones[|zones| - 1], dist)
  }

  /** `totalDanger`: the danger of every (point, zone) pair, points in travel order. */
  function TotalDanger(points: seq<Position>, zones: seq<UnsafeZone>, dist: DistanceFn): (r: real)
    requires ValidZones(zones) && NonNegative(dist)
    ensures r >= 0.0
  {
    if |points| == 0 then 0.0
    else
      var p := points[|points| - 1];
      TotalDanger(points[..|points| - 1], zones, dist) + PointDanger(p.0, p.1, zones, dist)
  }

  /** `Math.max(0, Math.min(100, x))`. */
  function Clamp(x: real): (r: real)
    ensures 0.0 <= r <= 100.0
    ensures 0.0 <= x <= 100.0 ==> r == x
    ensures x < 0.0 ==> r == 0.0
    ensures x > 100.0 ==> r == 100.0
  {
    if x < 0.0 then 0.0 else if x > 100.0 then 100.0 else x
  }

  /**
   * The score for a danger total over a route of `distance` metres. A zero
   * distance divides by zero: a positive danger gives `-Infinity`, which clamps
   * to 0, and no danger gives `NaN`, which is `None` here.
   */
  function ScoreFromDanger(totalDanger: real, distance: real): (score: Option<int>)
    requires totalDanger >= 0.0
    ensures score.None? <==> distance == 0.0 && totalDanger == 0.0
    ensures score.Some? ==> 0 <= score.value <= 100
    ensures distance != 0.0 && totalDanger == 0.0 ==> score == Some(100)
    ensures distance == 0.0 && totalDanger > 0.0 ==> score == Some(0)
    ensures distance != 0.0 ==>
      var x := 100.0 - 5.0 * (totalDanger * 1000.0 / distance);
      && (x <= 0.0 ==> score == Some(0))
      && (x >= 100.0 ==> score == Some(100))
      && (0.0 <= x <= 100.0 ==> score.Some? && x - 0.5 < score.value as real <= x + 0.5)
  {
    if distance == 0.0 then
      if totalDanger > 0.0 then Some(0) else None
    else
      var dangerPerKm := totalDanger / (distance / 1000.0);
      DangerPerKmIsRate(totalDanger, distance);
      Some(Round(Clamp(100.0 - dangerPerKm * 5.0)))
  }

  /** Danger per kilometre is the danger per metre scaled by 1000. */
  lemma DangerPerKmIsRate(totalDanger: real, distance: real)
    requires distance != 0.0
    ensures totalDanger / (distance / 1000.0) == totalDanger * 1000.0 / distance
  {
    var k := distance / 1000.0;
    assert k * 1000.0 == distance;
    assert totalDanger / k * k == totalDanger;
    assert (totalDanger * 1000.0 / distance) * distance == totalDanger * 1000.0;
    assert (totalDanger / k) * distance == (totalDanger / k * k) * 1000.0;
  }

  /** The score `calculateSafetyScore` gives `route` against `zones`. */
  function ScoreAgainst(route: Route, zones: seq<UnsafeZone>, dist: DistanceFn): Option<int>
    requires ValidZones(zones) && NonNegative(dist)
  {
    ScoreFromDanger(TotalDanger(route.coordinates, zones, dist), route.distance)
  }

  /** `calculateSafetyScore`: scores `route` against the zone registry. */
  method CalculateSafetyScore(route: Route, dist: DistanceFn) returns (score: Option<int>)
    requires NonNegative(dist)
    ensures ValidZones(UnsafeZones) && score == ScoreAgainst(route, UnsafeZones, dist)
    ensures route.distance > 0.0 ==> score.Some? && 0 <= score.value <= 100
  {
    UnsafeZonesValid();
    score := ScoreOver(route, UnsafeZones, dist);
  }

  /** The nested loop of `calculateSafetyScore`: every route point against every zone, in order. */
  method ScoreOver(route: Route, zones: seq<UnsafeZone>, dist: DistanceFn) returns (score: Option<int>)
    requires ValidZones(zones) && NonNegative(dist)
    ensures score == ScoreAgainst(route, zones, dist)
  {
    var totalDanger := 0.0;
    var coordinates := route.coordinates;
    var i := 0;
    while i < |coordinates|
      invariant 0 <= i <= |coordinates|
      invariant totalDanger == TotalDanger(coordinates[..i], zones, dist)
    {
      var (lat, lon) := coordinates[i];
      var j := 0;
      while j < |zones|
        invariant 0 <= j <= |zones|
        invariant totalDanger == TotalDanger(coordinates[..i], zones, dist) + PointDanger(lat, lon, zones[..j], dist)
      {
        var zone := zones[j];
        var distance := dist(lat, lon, zone.latitude, zone.longitude);
        ghost var before := totalDanger;
        if distance <= zone.radius {
          var severityWeight := SeverityWeight(zone.severity);
          var proximityFactor := 1.0 - distance / zone.radius;
          totalDanger := totalDanger + severityWeight as real * proximityFactor * 10.0;
        }
        ContributionUnfold(lat, lon, zone, dist);
        assert totalDanger == before + Contribution(lat, lon, zone, dist);
        PointDangerStep(lat, lon, zones, j, dist);
        j := j + 1;
      }
      assert zones[..j] == zones;
      TotalDangerStep(coordinates, i, zones, dist);
      i := i + 1;
    }
    assert coordinates[..i] == coordinates;
    score := ScoreFromDanger(totalDanger, route.distance);
  }

  lemma ContributionUnfold(lat: real, lon: real, zone: UnsafeZone, dist: DistanceFn)
    requires zone.radius > 0.0 && NonNegative(dist)
    ensures var d := dist(lat, lon, zone.latitude, zone.longitude);
      Contribution(lat, lon, zone, dist)
        == if d <= zone.radius then SeverityWeight(zone.severity) as real * (1.0 - d / zone.radius) * 10.0 else 0.0
  {
  }

  lemma PointDangerStep(lat: real, lon: real, zones: seq<UnsafeZone>, j: nat, dist: DistanceFn)
    requires ValidZones(zones) && NonNegative(dist) && j < |zones|
    ensures PointDanger(lat, lon, zones[..j + 1], dist)
         == PointDanger(lat, lon, zones[..j], dist) + Contribution(lat, lon, zones[j], dist)
  {
    assert zones[..j + 1][..j] == zones[..j];
  }

  lemma TotalDangerStep(points: seq<Position>, i: nat, zones: seq<UnsafeZone>, dist: DistanceFn)
    requires ValidZones(zones) && NonNegative(dist) && i < |points|
    ensures TotalDanger(points[..i + 1], zones, dist)
         == TotalDanger(points[..i], zones, dist) + PointDanger(points[i].0, points[i].1, zones, dist)
  {
    assert points[..i + 1][..i] == points[..i];
  }

  // ---------------------------------------------------------------------------
  // Properties of the scorer

  lemma {:induction false} NoHazardPointDanger(lat: real, lon: real, zones: seq<UnsafeZone>, dist: DistanceFn)
    requires ValidZones(zones) && NonNegative(dist)
    requires forall j :: 0 <= j < |zones| ==> dist(lat, lon, zones[j].latitude, zones[j].longitude) > zones[j].radius
    ensures PointDanger(lat, lon, zones, dist) == 0.0
  {
    if |zones| > 0 {
      NoHazardPointDanger(lat, lon, zones[..|zones| - 1], dist);
    }
  }

  lemma {:induction false} NoHazardTotalDanger(points: seq<Position>, zones: seq<UnsafeZone>, dist: DistanceFn)
    requires ValidZones(zones) && NonNegative(dist)
    requires forall i, j :: 0 <= i < |points| && 0 <= j < |zones| ==>
      dist(points[i].0, points[i].1, zones[j].latitude, zones[j].longitude) > zones[j].radius
    ensures TotalDanger(points, zones, dist) == 0.0
  {
    if |points| > 0 {
      var p := points[|points| - 1];
      NoHazardPointDanger(p.0, p.1, zones, dist);
      NoHazardTotalDanger(points[..|points| - 1], zones, dist);
    }
  }

  /** A route none of whose points lies within any zone's radius scores exactly 100. */
  lemma NoHazardScoresFull(route: Route, zones: seq<UnsafeZone>, dist: DistanceFn)
    requires ValidZones(zones) && NonNegative(dist)
    requires route.distance != 0.0
    requires forall i, j :: 0 <= i < |route.coordinates| && 0 <= j < |zones| ==>
      dist(route.coordinates[i].0, route.coordinates[i].1, zones[j].latitude, zones[j].longitude) > zones[j].radius
    ensures ScoreAgainst(route, zones, dist) == Some(100)
  {
    NoHazardTotalDanger(route.coordinates, zones, dist);
  }

  /** More danger over the same positive distance never gives a higher score. */
  /**
   * Over a positive distance the score is a full 100 exactly when the danger
   * per kilometre is at most 0.1, so that 100 - 5 * dangerPerKm rounds up to 100.
   */
  lemma FullScoreIff(totalDanger: real, distance: real)
    requires totalDanger >= 0.0 && distance > 0.0
    ensures ScoreFromDanger(totalDanger, distance) == Some(100) <==> totalDanger * 1000.0 / distance <= 0.1
  {
    var rate := totalDanger * 1000.0 / distance;
    assert rate >= 0.0 by {
      assert rate * distance == totalDanger * 1000.0;
    }
  }

  /**
   * Over the same positive distance, extra danger worth at least one score
   * point, with the first score above 0, strictly lowers the score.
   */
  lemma MoreDangerLowersScore(danger1: real, danger2: real, distance: real)
    requires 0.0 <= danger1 && distance > 0.0
    requires danger2 * 5000.0 / distance >= danger1 * 5000.0 / distance + 1.0
    requires ScoreFromDanger(danger1, distance).value > 0
    ensures ScoreFromDanger(danger2, distance).value < ScoreFromDanger(danger1, distance).value
  {
    assert danger1 * 5000.0 / distance == 5.0 * (danger1 * 1000.0 / distance);
    assert danger2 * 5000.0 / distance == 5.0 * (danger2 * 1000.0 / distance);
    assert danger1 * 1000.0 / distance >= 0.0 by {
      assert (danger1 * 1000.0 / distance) * distance == danger1 * 1000.0;
    }
    assert danger2 >= 0.0 by {
      assert (danger2 * 5000.0 / distance) * distance == danger2 * 5000.0;
    }
  }

  lemma ScoreAntitone(danger1: real, danger2: real, distance: real)
    requires 0.0 <= danger1 <= danger2 && distance > 0.0
    ensures ScoreFromDanger(danger2, distance).value <= ScoreFromDanger(danger1, distance).value
  {
    var k := distance / 1000.0;
    assert danger1 / k <= danger2 / k by {
      assert danger1 / k * k == danger1 && danger2 / k * k == danger2;
    }
    var x1 := 100.0 - danger1 / k * 5.0;
    var x2 := 100.0 - danger2 / k * 5.0;
    assert Clamp(x2) <= Clamp(x1);
    RoundMonotone(Clamp(x2), Clamp(x1));
  }

  lemma {:induction false} TotalDangerAppend(a: seq<Position>, b: seq<Position>, zones: seq<UnsafeZone>, dist: DistanceFn)
    requires ValidZones(zones) && NonNegative(dist)
    ensures TotalDanger(a + b, zones, dist) == TotalDanger(a, zones, dist) + TotalDanger(b, zones, dist)
  {
    if |b| == 0 {
      assert a + b == a;
    } else {
      var b' := b[..|b| - 1];
      assert (a + b)[..|a + b| - 1] == a + b';
      TotalDangerAppend(a, b', zones, dist);
    }
  }

  /** `totalDanger` never decreases while the outer loop advances over the points. */
  lemma DangerPrefixMonotone(points: seq<Position>, i: nat, j: nat, zones: seq<UnsafeZone>, dist: DistanceFn)
    requires ValidZones(zones) && NonNegative(dist)
    requires i <= j <= |points|
    ensures TotalDanger(points[..i], zones, dist) <= TotalDanger(points[..j], zones, dist)
  {
    assert points[..j] == points[..i] + points[i..j];
    TotalDangerAppend(points[..i], points[i..j], zones, dist);
  }

  /** Appending points to a route, at the same distance, can never raise its score. */
  lemma ExtraPointsNeverRaiseScore(route: Route, extra: seq<Position>, zones: seq<UnsafeZone>, dist: DistanceFn)
    requires ValidZones(zones) && NonNegative(dist)
    requires route.distance > 0.0
    ensures ScoreAgainst(route.(coordinates := route.coordinates + extra), zones, dist).value
         <= ScoreAgainst(route, zones, dist).value
  {
    TotalDangerAppend(route.coordinates, extra, zones, dist);
    ScoreAntitone(TotalDanger(route.coordinates, zones, dist),
                  TotalDanger(route.coordinates + extra, zones, dist), route.distance);
  }

  /** `z'` is `z` with a severity at least as high, at the same place and radius. */
  predicate NoLessSevere(z: UnsafeZone, z': UnsafeZone)
  {
    z'.latitude == z.latitude && z'.longitude == z.longitude && z'.radius == z.radius
    && SeverityWeight(z.severity) <= SeverityWeight(z'.severity)
  }

  predicate SeverityRaised(zones: seq<UnsafeZone>, zones': seq<UnsafeZone>)
  {
    |zones| == |zones'| && forall j :: 0 <= j < |zones| ==> NoLessSevere(zones[j], zones'[j])
  }

  lemma ContributionSeverityMonotone(lat: real, lon: real, z: UnsafeZone, z': UnsafeZone, dist: DistanceFn)
    requires z.radius > 0.0 && NonNegative(dist) && NoLessSevere(z, z')
    ensures Contribution(lat, lon, z, dist) <= Contribution(lat, lon, z', dist)
  {
    var d := dist(lat, lon, z.latitude, z.longitude);
    if d <= z.radius {
      var f := (1.0 - d / z.radius) * 10.0;
      assert f >= 0.0 by { assert d / z.radius <= 1.0; }
      assert SeverityWeight(z.severity) as real * f <= SeverityWeight(z'.severity) as real * f;
    }
  }

  lemma {:induction false} PointDangerSeverityMonotone(lat: real, lon: real, zones: seq<UnsafeZone>, zones': seq<UnsafeZone>, dist: DistanceFn)
    requires ValidZones(zones) && NonNegative(dist) && SeverityRaised(zones, zones')
    ensures ValidZones(zones')
    ensures PointDanger(lat, lon, zones, dist) <= PointDanger(lat, lon, zones', dist)
  {
    assert ValidZones(zones') by {
      forall j | 0 <= j < |zones'| ensures zones'[j].radius > 0.0 {
        assert NoLessSevere(zones[j], zones'[j]);
      }
    }
    if |zones| > 0 {
      var n := |zones| - 1;
      assert SeverityRaised(zones[..n], zones'[..n]) by {
        forall j | 0 <= j < n ensures NoLessSevere(zones[..n][j], zones'[..n][j]) {
          assert NoLessSevere(zones[j], zones'[j]);
        }
      }
      PointDangerSeverityMonotone(lat, lon, zones[..n], zones'[..n], dist);
      assert NoLessSevere(zones[n], zones'[n]);
      ContributionSeverityMonotone(lat, lon, zones[n], zones'[n], dist);
    }
  }

  lemma {:induction false} TotalDangerSeverityMonotone(points: seq<Position>, zones: seq<UnsafeZone>, zones': seq<UnsafeZone>, dist: DistanceFn)
    requires ValidZones(zones) && NonNegative(dist) && SeverityRaised(zones, zones')
    ensures ValidZones(zones')
    ensures TotalDanger(points, zones, dist) <= TotalDanger(points, zones', dist)
  {
    PointDangerSeverityMonotone(0.0, 0.0, zones, zones', dist);
    if |points| > 0 {
      var p := points[|points| - 1];
      PointDangerSeverityMonotone(p.0, p.1, zones, zones', dist);
      TotalDangerSeverityMonotone(points[..|points| - 1], zones, zones', dist);
    }
  }

  /** Raising the severity of zones, geometry unchanged, can never raise a route's score. */
  lemma HigherSeverityNeverRaisesScore(route: Route, zones: seq<UnsafeZone>, zones': seq<UnsafeZone>, dist: DistanceFn)
    requires ValidZones(zones) && NonNegative(dist) && SeverityRaised(zones, zones')
    requires route.distance > 0.0
    ensures ValidZones(zones')
    ensures ScoreAgainst(route, zones', dist).value <= ScoreAgainst(route, zones, dist).value
  {
    TotalDangerSeverityMonotone(route.coordinates, zones, zones', dist);
    ScoreAntitone(TotalDanger(route.coordinates, zones, dist),
                  TotalDanger(route.coordinates, zones', dist), route.distance);
  }

  // ---------------------------------------------------------------------------
  // getRoutes: validation, conversion of the provider's routes, scoring

  /** A start or end point as the page hands it over; either part may be non-finite. */
  datatype RouteCoordinate = RouteCoordinate(lat: JsNumber, lon: JsNumber)

  /** The `isValid` check of `getRoutes`. */
  predicate IsValidCoordinate(c: RouteCoordinate)
  {
    c.lat.Finite? && c.lon.Finite? && Abs(c.lat.value) <= 90.0 && Abs(c.lon.value) <= 180.0
  }

  datatype RoutingError = InvalidCoordinates | SameLocation | FetchFailed

  /** The message of the `Error` each failure throws. */
  function ErrorMessage(e: RoutingError): (m: string)
    ensures m != ""
  {
    match e
    case InvalidCoordinates => "Invalid coordinates. Please pick valid points on the map."
    case SameLocation => "Start and destination are the same location."
    case FetchFailed => "Failed to fetch routes. Please try again."
  }

  /** Both checks `getRoutes` makes before it sends any request. */
  function ValidateEndpoints(start: RouteCoordinate, end: RouteCoordinate): (r: Outcome<RoutingError>)
    ensures r == Fail(InvalidCoordinates) <==>
      !(start.lat.Finite? && start.lon.Finite? && end.lat.Finite? && end.lon.Finite?
        && -90.0 <= start.lat.value <= 90.0 && -180.0 <= start.lon.value <= 180.0
        && -90.0 <= end.lat.value <= 90.0 && -180.0 <= end.lon.value <= 180.0)
    ensures r == Fail(SameLocation) <==> r != Fail(InvalidCoordinates) && start == end
    ensures r == Pass || r == Fail(InvalidCoordinates) || r == Fail(SameLocation)
  {
    if !IsValidCoordinate(start) || !IsValidCoordinate(end) then Fail(InvalidCoordinates)
    else if start.lat.value == end.lat.value && start.lon.value == end.lon.value then Fail(SameLocation)
    else Pass
  }

  /**
   * One route of the directions response: its GeoJSON geometry (`[lon, lat]`
   * pairs, possibly missing) and its summary.
   */
  datatype RawRoute = RawRoute(geometry: Option<seq<Position>>, distance: real, duration: real)

  function Geometry(raw: RawRoute): seq<Position>
  {
    if raw.geometry.Some? then raw.geometry.value else []
  }

  function ToRoute(raw: RawRoute, index: nat): Route
  {
    var g := Geometry(raw);
    Route(index + 1, seq(|g|, k requires 0 <= k < |g| => (g[k].1, g[k].0)), raw.distance, raw.duration, None)
  }

  /** The `response.routes.map(...)` step: ids from 1 in response order, pairs flipped to `[lat, lon]`. */
  function ConvertRoutes(raw: seq<RawRoute>): (routes: seq<Route>)
    ensures |routes| == |raw|
    ensures forall i :: 0 <= i < |raw| ==>
      && routes[i].id == i + 1
      && routes[i].distance == raw[i].distance
      && routes[i].duration == raw[i].duration
      && routes[i].safetyScore.None?
      && |routes[i].coordinates| == |Geometry(raw[i])|
      && forall k :: 0 <= k < |Geometry(raw[i])| ==>
           routes[i].coordinates[k].0 == Geometry(raw[i])[k].1
           && routes[i].coordinates[k].1 == Geometry(raw[i])[k].0
  {
    seq(|raw|, i requires 0 <= i < |raw| => ToRoute(raw[i], i))
  }

  /** Converted routes carry pairwise distinct ids. */
  lemma ConvertedIdsDistinct(raw: seq<RawRoute>, i: nat, j: nat)
    requires i < j < |raw|
    ensures ConvertRoutes(raw)[i].id < ConvertRoutes(raw)[j].id
  {
  }

  function ScoreRoutes(routes: seq<Route>, dist: DistanceFn): (scored: seq<Route>)
    requires NonNegative(dist)
    ensures ValidZones(UnsafeZones)
    ensures |scored| == |routes|
    ensures forall i :: 0 <= i < |routes| ==>
      scored[i] == routes[i].(safetyScore := ScoreAgainst(routes[i], UnsafeZones, dist))
  {
    UnsafeZonesValid();
    seq(|routes|, i requires 0 <= i < |routes| => routes[i].(safetyScore := ScoreAgainst(routes[i], UnsafeZones, dist)))
  }

  /**
   * `getRoutes`. `provider` is what the directions provider's fallback chain
   * finally returned (empty when every attempt failed or returned no route).
   * An empty result throws inside the `try` and is rethrown as the generic
   * fetch failure.
   */
  function GetRoutes(start: RouteCoordinate, end: RouteCoordinate, provider: seq<RawRoute>, dist: DistanceFn)
    : (r: Result<seq<Route>, RoutingError>)
    requires NonNegative(dist)
    ensures ValidateEndpoints(start, end).Fail? ==> r == Failure(ValidateEndpoints(start, end).error)
    ensures ValidateEndpoints(start, end) == Pass && |provider| == 0 ==> r == Failure(FetchFailed)
    ensures r.Success? <==> ValidateEndpoints(start, end) == Pass && |provider| > 0
    ensures r.Success? ==> ScoreRoutes(ConvertRoutes(provider), dist) == r.value
    ensures r.Success? ==> forall i :: 0 <= i < |r.value| ==>
      r.value[i].id == i + 1
      && (provider[i].distance > 0.0 ==> r.value[i].safetyScore.Some? && 0 <= r.value[i].safetyScore.value <= 100)
  {
    match ValidateEndpoints(start, end)
    case Fail(e) => Failure(e)
    case Pass =>
      if |provider| == 0 then Failure(FetchFailed)
      else Success(ScoreRoutes(ConvertRoutes(provider), dist))
  }

  /** A rejected start or end never depends on what the provider would have answered. */
  lemma ValidationPrecedesRequest(start: RouteCoordinate, end: RouteCoordinate,
                                  p1: seq<RawRoute>, p2: seq<RawRoute>, dist: DistanceFn)
    requires NonNegative(dist)
    requires !IsValidCoordinate(start) || !IsValidCoordinate(end) || start == end
    ensures GetRoutes(start, end, p1, dist) == GetRoutes(start, end, p2, dist)
    ensures GetRoutes(start, end, p1, dist).Failure?
  {
  }

  // ---------------------------------------------------------------------------
  // Formatting

  /** `toFixed(2)` of a non-negative value: the nearest hundredth, halves rounded up. */
  function FixedTwo(x: real): string
    requires x >= 0.0
  {
    var n := Round(x * 100.0);
    NatToString(n / 100) + "." + PadStart(NatToString(n % 100), 2, '0')
  }

  function FormatDistance(meters: real): (s: string)
    ensures meters < 1000.0 ==> |s| >= 3 && s[|s| - 2..] == " m"
    ensures meters >= 1000.0 ==> |s| >= 7 && s[|s| - 3..] == " km" && s[|s| - 6] == '.'
  {
    if meters < 1000.0 then IntToString(Round(meters)) + " m"
    else FixedTwo(meters / 1000.0) + " km"
  }

  /**
   * Under 1000 m the text is the rounded metre count followed by " m";
   * otherwise it is kilometres with exactly two decimals followed by " km",
   * whose digits read back as the distance in tens of metres, rounded.
   */
  lemma FormatDistanceReadsBack(meters: real)
    ensures var s := FormatDistance(meters);
      if meters < 1000.0 then
        |s| >= 3 && s[|s| - 2..] == " m"
        && (IsDigits(s[..|s| - 2]) || (s[0] == '-' && IsDigits(s[1..|s| - 2])))
        && ParseInt(s[..|s| - 2]) == Round(meters)
        && (|s| == 3 || s[0] != '0') && (s[0] == '-' ==> s[1] != '0')
      else
        |s| >= 7 && s[|s| - 3..] == " km" && s[|s| - 6] == '.'
        && IsDigits(s[..|s| - 6]) && IsDigits(s[|s| - 5..|s| - 3])
        && ParseNat(s[..|s| - 6]) * 100 + ParseNat(s[|s| - 5..|s| - 3]) == Round(meters / 10.0)
        && (|s| == 7 || s[0] != '0')
  {
    var s := FormatDistance(meters);
    if meters < 1000.0 {
      var t := IntToString(Round(meters));
      assert s[..|s| - 2] == t;
      ParseIntToString(Round(meters));
      if Round(meters) > 0 {
        NatToStringLeadingDigit(Round(meters));
        assert s[0] == t[0];
      } else if Round(meters) < 0 {
        NatToStringLeadingDigit(-Round(meters));
        assert s[1] == NatToString(-Round(meters))[0];
      }
    } else {
      var n := Round(meters / 1000.0 * 100.0);
      assert meters / 1000.0 * 100.0 == meters / 10.0;
      var whole := NatToString(n / 100);
      var cents := PadStart(NatToString(n % 100), 2, '0');
      assert s == whole + "." + cents + " km";
      assert s[..|s| - 6] == whole;
      assert s[|s| - 5..|s| - 3] == cents;
      ParseNatToString(n / 100);
      ParsePaddedNat(n % 100, 2);
      NatToStringLeadingDigit(n / 100);
      assert s[0] == whole[0];
    }
  }

  lemma FormatDistanceExamples()
    ensures FormatDistance(999.0) == "999 m"
    ensures FormatDistance(1500.0) == "1.50 km"
  {
    FormatMetresExample();
    FormatKilometresExample();
  }

  lemma FormatMetresExample()
    ensures FormatDistance(999.0) == "999 m"
  {
    assert Round(999.0) == 999;
    assert NatToString(9) == "9";
    assert NatToString(99) == NatToString(9) + "9";
    assert NatToString(999) == NatToString(99) + "9";
    assert IntToString(999) == "999";
  }

  lemma FormatKilometresExample()
    ensures FormatDistance(1500.0) == "1.50 km"
  {
    assert 1500.0 / 1000.0 == 1.5;
    assert Round(1.5 * 100.0) == 150 by {
      assert 1.5 * 100.0 == 150.0;
    }
    var whole := NatToString(150 / 100);
    var cents := PadStart(NatToString(150 % 100), 2, '0');
    assert whole == "1" by {
      assert 150 / 100 == 1;
    }
    assert cents == "50" by {
      assert 150 % 100 == 50;
      assert NatToString(50) == NatToString(5) + "0";
    }
    assert FixedTwo(1.5) == whole + "." + cents;
  }

  function FormatDuration(seconds: real): (s: string)
    ensures Round(seconds / 60.0) < 60 ==> |s| >= 5 && s[|s| - 4..] == " min"
    ensures Round(seconds / 60.0) >= 60 ==> |s| >= 5 && s[|s| - 1] == 'm' && s[|s| - 4..] != " min"
  {
    var minutes := Round(seconds / 60.0);
    if minutes < 60 then IntToString(minutes) + " min"
    else NatToString(minutes / 60) + "h " + NatToString(minutes % 60) + "m"
  }

  /**
   * With m the rounded minute count: under an hour the text is m followed by
   * " min"; otherwise it is "Hh Mm" whose parts recompose to m with M below 60.
   * No number in the text carries a surplus leading zero.
   */
  lemma FormatDurationReadsBack(seconds: real)
    ensures var s := FormatDuration(seconds);
      var m := Round(seconds / 60.0);
      if m < 60 then
        |s| >= 5 && s[|s| - 4..] == " min"
        && (IsDigits(s[..|s| - 4]) || (s[0] == '-' && IsDigits(s[1..|s| - 4])))
        && ParseInt(s[..|s| - 4]) == m
        && (|s| == 5 || s[0] != '0') && (s[0] == '-' ==> s[1] != '0')
      else
        exists k ::
          && 0 < k && k + 3 <= |s| && s[k..k + 2] == "h " && s[|s| - 1] == 'm'
          && IsDigits(s[..k]) && IsDigits(s[k + 2..|s| - 1])
          && ParseNat(s[..k]) >= 1 && ParseNat(s[k + 2..|s| - 1]) < 60
          && ParseNat(s[..k]) * 60 + ParseNat(s[k + 2..|s| - 1]) == m
          && s[0] != '0' && (k + 4 == |s| || s[k + 2] != '0')
  {
    var m := Round(seconds / 60.0);
    if m < 60 {
      assert FormatDuration(seconds) == IntToString(m) + " min";
      MinutesReadBack(m);
    } else {
      assert FormatDuration(seconds) == NatToString(m / 60) + "h " + NatToString(m % 60) + "m";
      HoursMinutesReadBack(m);
    }
  }

  lemma MinutesReadBack(m: int)
    ensures var s := IntToString(m) + " min";
      && |s| >= 5 && s[|s| - 4..] == " min"
      && (IsDigits(s[..|s| - 4]) || (s[0] == '-' && IsDigits(s[1..|s| - 4])))
      && ParseInt(s[..|s| - 4]) == m
      && (|s| == 5 || s[0] != '0') && (s[0] == '-' ==> s[1] != '0')
  {
    var s := IntToString(m) + " min";
    assert s[..|s| - 4] == IntToString(m);
    ParseIntToString(m);
    if m > 0 {
      NatToStringLeadingDigit(m);
      assert s[0] == IntToString(m)[0];
    } else if m < 0 {
      NatToStringLeadingDigit(-m);
      assert s[1] == NatToString(-m)[0];
    }
  }

  lemma HoursMinutesLeadingDigits(m: int)
    requires m >= 60
    ensures var h := NatToString(m / 60);
      var s := h + "h " + NatToString(m % 60) + "m";
      s[0] != '0' && (|h| + 4 == |s| || s[|h| + 2] != '0')
  {
    var h := NatToString(m / 60);
    var mm := NatToString(m % 60);
    var s := h + "h " + mm + "m";
    NatToStringLeadingDigit(m / 60);
    NatToStringLeadingDigit(m % 60);
    assert s[0] == h[0];
    assert s[|h| + 2] == mm[0];
  }

  lemma HoursMinutesReadBack(m: int)
    requires m >= 60
    ensures var s := NatToString(m / 60) + "h " + NatToString(m % 60) + "m";
      exists k ::
        && 0 < k && k + 3 <= |s| && s[k..k + 2] == "h " && s[|s| - 1] == 'm'
        && IsDigits(s[..k]) && IsDigits(s[k + 2..|s| - 1])
        && ParseNat(s[..k]) >= 1 && ParseNat(s[k + 2..|s| - 1]) < 60
        && ParseNat(s[..k]) * 60 + ParseNat(s[k + 2..|s| - 1]) == m
        && s[0] != '0' && (k + 4 == |s| || s[k + 2] != '0')
  {
    var h := NatToString(m / 60);
    var mm := NatToString(m % 60);
    var s := h + "h " + mm + "m";
    var k := |h|;
    assert s[..k] == h;
    assert s[k..k + 2] == "h ";
    assert s[k + 2..|s| - 1] == mm;
    ParseNatToString(m / 60);
    ParseNatToString(m % 60);
    HoursMinutesLeadingDigits(m);
  }

  lemma FormatDurationExamples()
    ensures FormatDuration(2700.0) == "45 min"
    ensures FormatDuration(5400.0) == "1h 30m"
  {
    assert Round(2700.0 / 60.0) == 45;
    assert Round(5400.0 / 60.0) == 90;
  }

  /** The `{ text, color }` pair `getSafetyRating` returns. */
  datatype SafetyRating = SafetyRating(text: string, color: string)

  function GetSafetyRating(score: int): (r: SafetyRating)
    ensures r.text == "Very Safe" <==> score >= 80
    ensures r.text == "Safe" <==> 60 <= score < 80
    ensures r.text == "Moderate" <==> 40 <= score < 60
    ensures r.text == "Caution" <==> 20 <= score < 40
    ensures r.text == "Unsafe" <==> score < 20
    ensures r.color == match r.text
      case "Very Safe" => "text-green-600 dark:text-green-400"
      case "Safe" => "text-blue-600 dark:text-blue-400"
      case "Moderate" => "text-yellow-600 dark:text-yellow-400"
      case "Caution" => "text-orange-600 dark:text-orange-400"
      case _ => "text-red-600 dark:text-red-400"
  {
    if score >= 80 then SafetyRating("Very Safe", "text-green-600 dark:text-green-400")
    else if score >= 60 then SafetyRating("Safe", "text-blue-600 dark:text-blue-400")
    else if score >= 40 then SafetyRating("Moderate", "text-yellow-600 dark:text-yellow-400")
    else if score >= 20 then SafetyRating("Caution", "text-orange-600 dark:text-orange-400")
    else SafetyRating("Unsafe", "text-red-600 dark:text-red-400")
  }

  /** The position of a rating label from Unsafe (0) to Very Safe (4). */
  function RatingRank(r: SafetyRating): nat
  {
    match r.text
    case "Very Safe" => 4
    case "Safe" => 3
    case "Moderate" => 2
    case "Caution" => 1
    case _ => 0
  }

  /** A higher score never gets a worse rating. */
  lemma RatingMonotone(s1: int, s2: int)
    requires s1 <= s2
    ensures RatingRank(GetSafetyRating(s1)) <= RatingRank(GetSafetyRating(s2))
  {
  }
}
