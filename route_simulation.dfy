/**
 * The route deviation simulator: one service object that, while a session
 * runs, ticks once per interval, walks a cursor around the route and reports a
 * (simulated) deviation to the registered callback.
 */
module RouteSimulation {
  import opened Base
  import opened Geo

  datatype RouteDeviation = RouteDeviation(distanceFromRoute: real, offRoute: bool)

  /** The identity of a callback function; the model compares callbacks only by identity. */
  type Callback = nat

  /** A `window.setInterval` handle; browsers hand out positive integers. */
  type TimerHandle = x: int | x > 0 witness 1

  const DeviationChance: real := 0.3
  const OffRouteThreshold: real := 100.0

  /**
   * The reading one tick reports, from the two `Math.random()` draws: the
   * first decides whether to deviate, the second how far (50 to 200 metres).
   */
  function DeviationFor(deviateDraw: real, distanceDraw: real): (d: RouteDeviation)
    requires 0.0 <= deviateDraw < 1.0 && 0.0 <= distanceDraw < 1.0
    ensures deviateDraw >= DeviationChance ==> d.distanceFromRoute == 0.0
    ensures deviateDraw < DeviationChance ==> 50.0 <= d.distanceFromRoute < 200.0
    ensures deviateDraw < DeviationChance ==> d.distanceFromRoute == 50.0 + distanceDraw * 150.0
    ensures d.offRoute <==> d.distanceFromRoute > OffRouteThreshold
    ensures d.offRoute <==> deviateDraw < DeviationChance && distanceDraw > 1.0 / 3.0
  {
    var deviationDistance := if deviateDraw < DeviationChance then 50.0 + distanceDraw * 150.0 else 0.0;
    RouteDeviation(deviationDistance, deviationDistance > OffRouteThreshold)
  }

  class RouteSimulationService {
    var simulationInterval: Option<TimerHandle>
    var currentRoute: Option<seq<Position>>
    var currentPositionIndex: nat
    var deviationCallback: Option<Callback>
    var isSimulating: bool
    /** The intervals this service has installed and not yet cleared. */
    ghost var liveTimers: set<TimerHandle>

    ghost predicate Valid()
      reads this
    {
      && (isSimulating <==> currentRoute.Some?)
      && (isSimulating <==> deviationCallback.Some?)
      && (isSimulating <==> simulationInterval.Some?)
      && liveTimers == (if simulationInterval.Some? then {simulationInterval.value} else {})
      && (currentRoute.Some? ==> currentPositionIndex < |currentRoute.value| || currentPositionIndex == 0)
    }

    constructor ()
      ensures Valid() && !isSimulating && currentPositionIndex == 0 && liveTimers == {}
    {
      simulationInterval := None;
      currentRoute := None;
      currentPositionIndex := 0;
      deviationCallback := None;
      isSimulating := false;
      liveTimers := {};
    }

    /** At most one interval of this service is ever live. */
    lemma AtMostOneTimer()
      requires Valid()
      ensures |liveTimers| <= 1
    {
    }

    /**
     * `startSimulation`. `newHandle` is the handle `setInterval` returns; any
     * interval already installed is cleared first.
     */
    method StartSimulation(route: seq<Position>, callback: Callback, newHandle: TimerHandle)
      requires Valid()
      modifies this
      ensures Valid()
      ensures currentRoute == Some(route) && currentPositionIndex == 0
      ensures deviationCallback == Some(callback) && isSimulating
      ensures simulationInterval == Some(newHandle) && liveTimers == {newHandle}
    {
      currentRoute := Some(route);
      currentPositionIndex := 0;
      deviationCallback := Some(callback);
      isSimulating := true;

      if simulationInterval.Some? {
        liveTimers := liveTimers - {simulationInterval.value};
      }
      simulationInterval := Some(newHandle);
      liveTimers := liveTimers + {newHandle};
    }

    /** `stopSimulation`: the end state depends only on the cursor, so a second call changes nothing. */
    method StopSimulation()
      requires Valid()
      modifies this
      ensures Valid()
      ensures !isSimulating && currentRoute.None? && deviationCallback.None?
      ensures simulationInterval.None? && liveTimers == {}
      ensures currentPositionIndex == old(currentPositionIndex)
    {
      if simulationInterval.Some? {
        liveTimers := liveTimers - {simulationInterval.value};
        simulationInterval := None;
      }
      isSimulating := false;
      currentRoute := None;
      deviationCallback := None;
    }

    /**
     * `simulateNextPosition`, one interval tick, with the two random draws as
     * parameters. Returns the callback invoked and the reading it received.
     */
    method SimulateNextPosition(deviateDraw: real, distanceDraw: real)
      returns (emitted: Option<(Callback, RouteDeviation)>)
      requires Valid()
      requires 0.0 <= deviateDraw < 1.0 && 0.0 <= distanceDraw < 1.0
      modifies this`currentPositionIndex
      ensures Valid()
      ensures old(currentRoute).None? || old(deviationCallback).None? ==>
        emitted.None? && currentPositionIndex == old(currentPositionIndex)
      ensures old(currentRoute).Some? && old(deviationCallback).Some? ==>
        && emitted == Some((old(deviationCallback).value, DeviationFor(deviateDraw, distanceDraw)))
        && currentPositionIndex == if |old(currentRoute).value| == 0 then 0
                                   else (old(currentPositionIndex) + 1) % |old(currentRoute).value|
    {
      if currentRoute.None? || deviationCallback.None? {
        return None;
      }
      currentPositionIndex := currentPositionIndex + 1;
      if currentPositionIndex >= |currentRoute.value| {
        currentPositionIndex := 0;
      }
      emitted := Some((deviationCallback.value, DeviationFor(deviateDraw, distanceDraw)));
    }

    /** `isRunning`. */
    function IsRunning(): (running: bool)
      reads this
      requires Valid()
      ensures running <==> simulationInterval.Some? && currentRoute.Some?
    {
      isSimulating
    }

    /**
     * `calculateDistanceToRoute`: the distance from (lat, lon) to the nearest
     * route vertex, or `Infinity` for an empty route.
     */
    method CalculateDistanceToRoute(lat: real, lon: real, route: seq<Position>, dist: DistanceFn)
      returns (d: JsNumber)
      requires NonNegative(dist)
      ensures d == PosInfinity <==> |route| == 0
      ensures |route| > 0 ==> d.Finite? && d.value >= 0.0
      ensures d.Finite? ==> forall k :: 0 <= k < |route| ==> d.value <= dist(lat, lon, route[k].0, route[k].1)
      ensures d.Finite? ==> exists k :: 0 <= k < |route| && d.value == dist(lat, lon, route[k].0, route[k].1)
    {
      if |route| == 0 {
        return PosInfinity;
      }
      var minDistance := PosInfinity;
      ghost var nearest := 0;
      var i := 0;
      while i < |route|
        invariant 0 <= i <= |route|
        invariant i == 0 <==> minDistance == PosInfinity
        invariant i > 0 ==> minDistance.Finite? && nearest < i && minDistance.value >= 0.0
                            && minDistance.value == dist(lat, lon, route[nearest].0, route[nearest].1)
        invariant minDistance.Finite? ==>
          forall k :: 0 <= k < i ==> minDistance.value <= dist(lat, lon, route[k].0, route[k].1)
      {
        var (routeLat, routeLon) := route[i];
        var distance := dist(lat, lon, routeLat, routeLon);
        assert distance >= 0.0;
        if minDistance == PosInfinity || distance < minDistance.value {
          minDistance := Finite(distance);
          nearest := i;
        }
        i := i + 1;
      }
      d := minDistance;
    }
  }
}
