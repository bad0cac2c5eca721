/** Commute routes, the regions that stand for their places, and the choice between routes by the hour of the
    day (RecorderRoute.swift, DirectionPolicy.swift, the role types of GeofencePlanner.swift). */
module Routes {
  import opened Basics

  datatype Direction = ToWork | ToHome

  datatype Mode = Bus | Subway | Gtx

  datatype Coordinate = Coordinate(lat: real, lng: real)

  datatype StopPoint = StopPoint(id: int, name: string, coordinate: Coordinate)

  datatype TransitLeg = TransitLeg(legId: int, mode: Mode, lineName: string, board: StopPoint, alight: StopPoint)

  datatype Route = Route(
    id: int, direction: Direction, origin: Coordinate, destination: Coordinate, transitLegs: seq<TransitLeg>)
  {
    /** Leg ids are row ids, so a route never has one twice. */
    predicate Distinct() {
      forall i, j :: 0 <= i < j < |transitLegs| ==> transitLegs[i].legId != transitLegs[j].legId
    }
  }

  datatype Role =
    | Origin(routeId: int)
    | Destination(routeId: int)
    | BoardStop(routeId: int, legId: int)
    | AlightStop(routeId: int, legId: int)

  datatype PlannedRegion = PlannedRegion(identifier: string, center: Coordinate, radius: real, roles: seq<Role>)

  datatype GeofencePlan = GeofencePlan(regions: seq<PlannedRegion>, dropped: seq<Role>) {
    function RolesFor(identifier: string): seq<Role> {
      FindRoles(regions, identifier)
    }
  }

  function FindRoles(regions: seq<PlannedRegion>, identifier: string): seq<Role> {
    if regions == [] then []
    else if regions[0].identifier == identifier then regions[0].roles
    else FindRoles(regions[1..], identifier)
  }

  /** The first index of the leg, if the route has it. */
  function LegIndex(legs: seq<TransitLeg>, legId: int): (i: Option<nat>)
    ensures i.Some? ==> i.value < |legs| && legs[i.value].legId == legId
  {
    if legs == [] then None
    else if legs[0].legId == legId then Some(0)
    else
      var rest := LegIndex(legs[1..], legId);
      if rest.Some? then Some(rest.value + 1) else None
  }

  // ---- direction policy --------------------------------------------------------------------------

  /** The hours of the day, KST, at which going to work is usual. */
  datatype Hours = Hours(from: int, until: int)

  function UsualDirection(hours: Hours, at: Time): Direction {
    if hours.from <= KstHour(at) < hours.until then ToWork else ToHome
  }

  /** The usual direction comes first, then the smaller id. */
  predicate Before(a: Route, b: Route, usual: Direction) {
    if (a.direction == usual) != (b.direction == usual) then a.direction == usual else a.id < b.id
  }

  /** The first of the routes in that order. */
  function FirstRoute(routes: seq<Route>, usual: Direction): (r: Option<Route>)
    ensures r.None? <==> routes == []
    ensures r.Some? ==> r.value in routes && forall other :: other in routes ==> !Before(other, r.value, usual)
  {
    if routes == [] then None
    else
      var rest := FirstRoute(routes[1..], usual);
      assert routes == [routes[0]] + routes[1..];
      if rest.Some? && Before(rest.value, routes[0], usual) then rest else Some(routes[0])
  }

  function StartingAt(routes: seq<Route>, roles: seq<Role>): (r: seq<Route>)
    ensures forall route :: route in r ==> route in routes
  {
    if routes == [] then []
    else if Origin(routes[0].id) in roles then [routes[0]] + StartingAt(routes[1..], roles)
    else StartingAt(routes[1..], roles)
  }

  /** The route to record when regions are left: one whose origin is among them. */
  function RouteToStart(hours: Hours, routes: seq<Route>, roles: seq<Role>, at: Time): (r: Option<Route>)
    ensures r.Some? ==> r.value in routes
  {
    FirstRoute(StartingAt(routes, roles), UsualDirection(hours, at))
  }
}
