/**
 * The decision logic of the safe-routing page: the guards of `findRoutes`,
 * the best-route `reduce`, the route colours, the score-bar band and the
 * guards around starting and stopping the simulator.
 */
module SafeRouting {
  import opened Base
  import opened Geo
  import opened Routing
  import opened RouteSimulation

  datatype RouteMode = Safest | Shortest

  /** `route.safetyScore || 0`: a missing (or NaN) score counts as 0. */
  function ScoreOrZero(r: Route): int
  {
    if r.safetyScore.Some? then r.safetyScore.value else 0
  }

  /** The condition under which `reduce` replaces `prev` by `current`. */
  predicate Replaces(mode: RouteMode, current: Route, prev: Route)
  {
    match mode
    case Safest => ScoreOrZero(current) > ScoreOrZero(prev)
    case Shortest => current.distance < prev.distance
  }

  /** The index `reduce` holds after visiting `routes[..n]`. */
  function ReduceBest(routes: seq<Route>, mode: RouteMode, n: nat): (k: nat)
    requires 1 <= n <= |routes|
    ensures k < n
    ensures forall j :: 0 <= j < n ==> !Replaces(mode, routes[j], routes[k])
    ensures forall j :: 0 <= j < k ==> Replaces(mode, routes[k], routes[j])
  {
    if n == 1 then 0
    else
      var prev := ReduceBest(routes, mode, n - 1);
      if Replaces(mode, routes[n - 1], routes[prev]) then n - 1 else prev
  }

  /**
   * The route `findRoutes` selects. In "safest" mode no route scores higher
   * and every earlier route scores strictly lower; in "shortest" mode no route
   * is shorter and every earlier route is strictly longer.
   */
  function SelectBest(routes: seq<Route>, mode: RouteMode): (k: nat)
    requires |routes| > 0
    ensures k < |routes|
    ensures mode == Safest ==>
      && (forall j :: 0 <= j < |routes| ==> ScoreOrZero(routes[j]) <= ScoreOrZero(routes[k]))
      && (forall j :: 0 <= j < k ==> ScoreOrZero(routes[j]) < ScoreOrZero(routes[k]))
    ensures mode == Shortest ==>
      && (forall j :: 0 <= j < |routes| ==> routes[k].distance <= routes[j].distance)
      && (forall j :: 0 <= j < k ==> routes[k].distance < routes[j].distance)
  {
    ReduceBest(routes, mode, |routes|)
  }

  /** The part of the page state the modelled handlers read and write. */
  datatype RoutingPage = RoutingPage(
    error: string,
    loading: bool,
    routes: seq<Route>,
    selected: Option<nat>,
    isSimulating: bool,
    deviationAlert: Option<RouteDeviation>)

  /** The selected route, when there is one, is one of the listed routes. */
  predicate PageValid(page: RoutingPage)
  {
    page.selected.Some? ==> page.selected.value < |page.routes|
  }

  const MissingEndpoints := "Please select both starting and destination locations"
  const NoRoutesFound := "No routes found. Try different locations."
  const FallbackError := "Failed to calculate routes"

  /** The page after `findRoutes`, and whether it called the routing service. */
  datatype FindOutcome = FindOutcome(page: RoutingPage, requested: bool)

  /**
   * `findRoutes`. `response` is what `getRoutes` settled to: the routes, or
   * the message of the error it threw. The map-centre update is not modelled.
   */
  function FindRoutes(page: RoutingPage, from: Option<RouteCoordinate>, to: Option<RouteCoordinate>,
                      mode: RouteMode, response: Result<seq<Route>, string>): (r: FindOutcome)
    ensures r.requested <==> from.Some? && to.Some?
    ensures !r.requested ==> r.page == page.(error := MissingEndpoints)
    ensures PageValid(page) ==> PageValid(r.page)
    ensures r.requested ==> !r.page.loading
    ensures r.page.isSimulating == page.isSimulating && r.page.deviationAlert == page.deviationAlert
    ensures r.requested && response.Failure? ==>
      && r.page.selected.None? && r.page.routes == []
      && r.page.error == (if response.error != "" then response.error else FallbackError)
    ensures r.requested && response == Success([]) ==>
      r.page.error == NoRoutesFound && r.page.selected.None? && r.page.routes == []
    ensures r.requested && response.Success? && |response.value| > 0 ==>
      && r.page.error == "" && r.page.routes == response.value
      && r.page.selected == Some(SelectBest(response.value, mode))
  {
    if from.None? || to.None? then
      FindOutcome(page.(error := MissingEndpoints), false)
    else
      var cleared := page.(error := "", loading := true, routes := [], selected := None);
      var settled :=
        match response
        case Failure(message) => cleared.(error := if message != "" then message else FallbackError)
        case Success(routes) =>
          if |routes| == 0 then cleared.(error := NoRoutesFound)
          else cleared.(routes := routes, selected := Some(SelectBest(routes, mode)));
      FindOutcome(settled.(loading := false), true)
  }

  /** What the page receives from `getRoutes`: the routes or the thrown message. */
  function Settle(r: Result<seq<Route>, RoutingError>): Result<seq<Route>, string>
  {
    match r
    case Success(routes) => Success(routes)
    case Failure(e) => Failure(ErrorMessage(e))
  }

  /**
   * With the real routing service behind it, the "No routes found" branch is
   * never taken: an empty provider answer is thrown as a fetch failure.
   */
  lemma NoRoutesFoundUnreachable(page: RoutingPage, from: RouteCoordinate, to: RouteCoordinate,
                                 mode: RouteMode, provider: seq<RawRoute>, dist: DistanceFn)
    requires NonNegative(dist)
    ensures FindRoutes(page, Some(from), Some(to), mode, Settle(GetRoutes(from, to, provider, dist))).page.error
            != NoRoutesFound
  {
    var g := GetRoutes(from, to, provider, dist);
    var r := FindRoutes(page, Some(from), Some(to), mode, Settle(g));
    if g.Success? {
      assert |g.value| == |provider| > 0;
      assert r.page.error == "";
    } else {
      RoutingMessageDiffers(g.error);
      assert r.page.error == ErrorMessage(g.error);
    }
  }

  lemma RoutingMessageDiffers(e: RoutingError)
    ensures ErrorMessage(e) != "" && ErrorMessage(e) != NoRoutesFound
  {
    assert NoRoutesFound[0] == 'N';
    match e
    case InvalidCoordinates =>
      assert |ErrorMessage(e)| != |NoRoutesFound|;
    case SameLocation =>
      assert |ErrorMessage(e)| != |NoRoutesFound|;
    case FetchFailed =>
      assert ErrorMessage(e)[0] == 'F';
  }

  const Gray := "#9CA3AF"
  const Green := "#10B981"
  const Red := "#EF4444"

  /** `getRouteColor` for the route at index `i` (the source compares route objects by identity). */
  function GetRouteColor(routes: seq<Route>, selected: Option<nat>, i: nat): (c: string)
    requires i < |routes|
    ensures c == Green <==> selected == Some(i)
    ensures c == Red <==> selected.Some? && selected != Some(i) && ScoreOrZero(routes[i]) < 40
    ensures c == Gray <==> selected.None? || (selected != Some(i) && ScoreOrZero(routes[i]) >= 40)
  {
    if selected.None? then Gray
    else if selected == Some(i) then Green
    else if ScoreOrZero(routes[i]) < 40 then Red
    else Gray
  }

  /** The colour class of a route's score bar. */
  function ScoreBarClass(route: Route): (c: string)
    ensures c == "bg-green-600" <==> ScoreOrZero(route) >= 80
    ensures c == "bg-blue-600" <==> 60 <= ScoreOrZero(route) < 80
    ensures c == "bg-yellow-600" <==> 40 <= ScoreOrZero(route) < 60
    ensures c == "bg-red-600" <==> ScoreOrZero(route) < 40
  {
    var score := ScoreOrZero(route);
    if score >= 80 then "bg-green-600"
    else if score >= 60 then "bg-blue-600"
    else if score >= 40 then "bg-yellow-600"
    else "bg-red-600"
  }

  /**
   * The score bar agrees with the service's safety rating: one band per
   * rating from 40 up, and red for both Caution and Unsafe.
   */
  lemma ScoreBarMatchesRating(route: Route)
    ensures var rating := GetSafetyRating(ScoreOrZero(route)).text;
      && (ScoreBarClass(route) == "bg-green-600" <==> rating == "Very Safe")
      && (ScoreBarClass(route) == "bg-blue-600" <==> rating == "Safe")
      && (ScoreBarClass(route) == "bg-yellow-600" <==> rating == "Moderate")
      && (ScoreBarClass(route) == "bg-red-600" <==> rating == "Caution" || rating == "Unsafe")
  {
  }

  /** A route drawn red is never the selected one and always has a red score bar. */
  lemma RedRouteHasRedBar(routes: seq<Route>, selected: Option<nat>, i: nat)
    requires i < |routes| && GetRouteColor(routes, selected, i) == Red
    ensures selected != Some(i) && ScoreBarClass(routes[i]) == "bg-red-600"
  {
  }

  const NoRouteSelected := "Please select a route first"

  /** The page after `startRouteSimulation`, and the route handed to the simulator if any. */
  datatype StartOutcome = StartOutcome(page: RoutingPage, simulate: Option<seq<Position>>)

  function StartRouteSimulation(page: RoutingPage): (r: StartOutcome)
    requires PageValid(page)
    ensures page.selected.None? ==> r.simulate.None? && r.page == page.(error := NoRouteSelected)
    ensures page.selected.Some? ==>
      && r.simulate == Some(page.routes[page.selected.value].coordinates)
      && r.page == page.(isSimulating := true, deviationAlert := None)
  {
    if page.selected.None? then StartOutcome(page.(error := NoRouteSelected), None)
    else StartOutcome(page.(isSimulating := true, deviationAlert := None),
                      Some(page.routes[page.selected.value].coordinates))
  }

  /** The page half of `stopRouteSimulation` (the service is always stopped as well). */
  function StopRouteSimulation(page: RoutingPage): (r: RoutingPage)
    ensures !r.isSimulating && r.deviationAlert.None?
    ensures r.routes == page.routes && r.selected == page.selected && r.error == page.error
    ensures r.loading == page.loading
  {
    page.(isSimulating := false, deviationAlert := None)
  }

  /** `startRouteSimulation` driving the simulator: it starts only on the selected route. */
  method StartRouteSimulationOn(page: RoutingPage, sim: RouteSimulationService, callback: Callback,
                                handle: TimerHandle) returns (page': RoutingPage)
    requires PageValid(page) && sim.Valid()
    modifies sim
    ensures sim.Valid() && page' == StartRouteSimulation(page).page
    ensures page.selected.None? ==> unchanged(sim)
    ensures page.selected.Some? ==>
      && sim.isSimulating && sim.currentRoute == Some(page.routes[page.selected.value].coordinates)
      && sim.deviationCallback == Some(callback) && sim.currentPositionIndex == 0
      && sim.simulationInterval == Some(handle)
  {
    var outcome := StartRouteSimulation(page);
    if outcome.simulate.Some? {
      sim.StartSimulation(outcome.simulate.value, callback, handle);
    }
    page' := outcome.page;
  }

  /** `stopRouteSimulation`: stops the simulator and clears the page's flag and alert. */
  method StopRouteSimulationOn(page: RoutingPage, sim: RouteSimulationService) returns (page': RoutingPage)
    requires sim.Valid()
    modifies sim
    ensures sim.Valid() && !sim.IsRunning()
    ensures page' == StopRouteSimulation(page)
  {
    sim.StopSimulation();
    page' := StopRouteSimulation(page);
  }
}
