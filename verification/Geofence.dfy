/** The regions the app asks the phone to watch: chosen within the limit of the platform (GeofencePlanner.plan), and
    brought into line with what is already watched (GeofencePlan.sync). Distances come from a function of the caller. */
module Geofence {
  import opened Basics
  import opened Routes
  import opened Sorting

  type Distance = (Coordinate, Coordinate) -> real

  const MAX_REGIONS := 20

  datatype RadiusPolicy = RadiusPolicy(place: real, busStop: real, railStation: real) {
    function StopRadius(mode: Mode): real {
      if mode.Bus? then busStop else railStation
    }
  }

  datatype Candidate = Candidate(role: Role, center: Coordinate, radius: real)

  // ---- candidates in order of priority -----------------------------------------------------------

  function InsertRoute(route: Route, sorted: seq<Route>, usual: Direction): (r: seq<Route>)
    ensures multiset(r) == multiset(sorted) + multiset{route}
  {
    if sorted == [] then [route]
    else if Before(sorted[0], route, usual) then
      assert sorted == [sorted[0]] + sorted[1..];
      [sorted[0]] + InsertRoute(route, sorted[1..], usual)
    else [route] + sorted
  }

  function Prioritized(routes: seq<Route>, usual: Direction): (r: seq<Route>)
    ensures multiset(r) == multiset(routes)
  {
    if routes == [] then []
    else
      assert routes == [routes[0]] + routes[1..];
      InsertRoute(routes[0], Prioritized(routes[1..], usual), usual)
  }

  function RouteIndex(routes: seq<Route>, id: int): (i: nat)
    ensures i <= |routes|
    ensures i < |routes| ==> routes[i].id == id
  {
    if routes == [] || routes[0].id == id then 0 else 1 + RouteIndex(routes[1..], id)
  }

  /** The route of the trip being recorded comes first. */
  function ActiveFirst(routes: seq<Route>, active: Option<int>): seq<Route> {
    if active.None? then routes
    else
      var i := RouteIndex(routes, active.value);
      if i == |routes| then routes else [routes[i]] + routes[..i] + routes[i + 1..]
  }

  function Origins(routes: seq<Route>, radius: RadiusPolicy): seq<Candidate> {
    seq(|routes|, i requires 0 <= i < |routes| => Candidate(Origin(routes[i].id), routes[i].origin, radius.place))
  }

  function Stops(routeId: int, legs: seq<TransitLeg>, radius: RadiusPolicy): seq<Candidate> {
    if legs == [] then []
    else
      var leg := legs[|legs| - 1];
      var r := radius.StopRadius(leg.mode);
      Stops(routeId, legs[..|legs| - 1], radius)
      + [Candidate(BoardStop(routeId, leg.legId), leg.board.coordinate, r),
         Candidate(AlightStop(routeId, leg.legId), leg.alight.coordinate, r)]
  }

  function Rest(routes: seq<Route>, radius: RadiusPolicy): seq<Candidate> {
    if routes == [] then []
    else
      var route := routes[|routes| - 1];
      Rest(routes[..|routes| - 1], radius)
      + ([Candidate(Destination(route.id), route.destination, radius.place)] + Stops(route.id, route.transitLegs, radius))
  }

  function Candidates(routes: seq<Route>, usual: Direction, active: Option<int>, radius: RadiusPolicy): seq<Candidate> {
    var ordered := ActiveFirst(Prioritized(routes, usual), active);
    Origins(ordered, radius) + Rest(ordered, radius)
  }

  // ---- clustering --------------------------------------------------------------------------------

  function Digit(n: nat): char
    requires n < 10
  {
    ('0' as int + n) as char
  }

  function Digits(n: nat): string {
    if n < 10 then [Digit(n)] else Digits(n / 10) + [Digit(n % 10)]
  }

  function Decimal(n: int): string {
    if n < 0 then "-" + Digits(-n) else Digits(n)
  }

  const PREFIX := "wio."

  /** The ids of the route and the leg. */
  function Tail(role: Role): string {
    match role
    case Origin(routeId) => Decimal(routeId)
    case Destination(routeId) => Decimal(routeId)
    case BoardStop(routeId, legId) => Decimal(routeId) + "." + Decimal(legId)
    case AlightStop(routeId, legId) => Decimal(routeId) + "." + Decimal(legId)
  }

  function Kind(role: Role): char {
    match role
    case Origin(_) => 'o'
    case Destination(_) => 'd'
    case BoardStop(_, _) => 'b'
    case AlightStop(_, _) => 'a'
  }

  /** "wio.", the letter of the kind, and the ids, set apart by dots. */
  function Identifier(role: Role): string {
    PREFIX + [Kind(role), '.'] + Tail(role)
  }

  /** The first region whose centre is near, or the number of regions. */
  function Near(regions: seq<PlannedRegion>, center: Coordinate, dist: Distance, merge: real): (i: nat)
    ensures i <= |regions|
    ensures i < |regions| ==> dist(regions[i].center, center) <= merge
    ensures forall j :: 0 <= j < i ==> dist(regions[j].center, center) > merge
  {
    if regions == [] || dist(regions[0].center, center) <= merge then 0
    else 1 + Near(regions[1..], center, dist, merge)
  }

  function Join(region: PlannedRegion, c: Candidate): PlannedRegion {
    region.(roles := if c.role in region.roles then region.roles else region.roles + [c.role],
            radius := MaxReal(region.radius, c.radius))
  }

  function Place(plan: GeofencePlan, c: Candidate, dist: Distance, merge: real, max: int): GeofencePlan {
    var i := Near(plan.regions, c.center, dist, merge);
    if i < |plan.regions| then plan.(regions := plan.regions[i := Join(plan.regions[i], c)])
    else if |plan.regions| < max then
      plan.(regions := plan.regions + [PlannedRegion(Identifier(c.role), c.center, c.radius, [c.role])])
    else plan.(dropped := plan.dropped + [c.role])
  }

  function PlaceAll(cs: seq<Candidate>, dist: Distance, merge: real, max: int): GeofencePlan {
    if cs == [] then GeofencePlan([], [])
    else Place(PlaceAll(cs[..|cs| - 1], dist, merge, max), cs[|cs| - 1], dist, merge, max)
  }

  /** A route's stops, boarding before alighting, leg after leg. */
  method ListStops(route: Route, radius: RadiusPolicy, before: seq<Candidate>) returns (candidates: seq<Candidate>)
    ensures candidates == before + Stops(route.id, route.transitLegs, radius)
  {
    candidates := before;
    for j := 0 to |route.transitLegs|
      invariant candidates == before + Stops(route.id, route.transitLegs[..j], radius)
    {
      var leg := route.transitLegs[j];
      assert route.transitLegs[..j + 1][..j] == route.transitLegs[..j];
      var stopRadius := radius.StopRadius(leg.mode);
      candidates := candidates + [Candidate(BoardStop(route.id, leg.legId), leg.board.coordinate, stopRadius),
                                  Candidate(AlightStop(route.id, leg.legId), leg.alight.coordinate, stopRadius)];
    }
    assert route.transitLegs[..|route.transitLegs|] == route.transitLegs;
  }

  /** The planner's list of candidates. */
  method ListCandidates(routes: seq<Route>, usual: Direction, active: Option<int>, radius: RadiusPolicy)
    returns (candidates: seq<Candidate>)
    ensures candidates == Candidates(routes, usual, active, radius)
  {
    hide ActiveFirst, Prioritized, Origins, Stops;
    var ordered := ActiveFirst(Prioritized(routes, usual), active);
    candidates := Origins(ordered, radius);
    for i := 0 to |ordered|
      invariant candidates == Origins(ordered, radius) + Rest(ordered[..i], radius)
    {
      var route := ordered[i];
      assert ordered[..i + 1][..i] == ordered[..i];
      ghost var before := candidates;
      var first := [Candidate(Destination(route.id), route.destination, radius.place)];
      candidates := ListStops(route, radius, candidates + first);
      assert candidates == before + (first + Stops(route.id, route.transitLegs, radius));
    }
    assert ordered[..|ordered|] == ordered;
  }

  /** The planner's choice of regions. */
  method Cluster(candidates: seq<Candidate>, dist: Distance, merge: real, max: int) returns (plan: GeofencePlan)
    ensures plan == PlaceAll(candidates, dist, merge, max)
  {
    var regions: seq<PlannedRegion>, dropped: seq<Role> := [], [];
    for i := 0 to |candidates|
      invariant GeofencePlan(regions, dropped) == PlaceAll(candidates[..i], dist, merge, max)
    {
      assert candidates[..i + 1][..i] == candidates[..i];
      var c := candidates[i];
      var index := Near(regions, c.center, dist, merge);
      if index < |regions| {
        if c.role !in regions[index].roles {
          regions := regions[index := regions[index].(roles := regions[index].roles + [c.role])];
        }
        regions := regions[index := regions[index].(radius := MaxReal(regions[index].radius, c.radius))];
      } else if |regions| < max {
        regions := regions + [PlannedRegion(Identifier(c.role), c.center, c.radius, [c.role])];
      } else {
        dropped := dropped + [c.role];
      }
    }
    assert candidates[..|candidates|] == candidates;
    plan := GeofencePlan(regions, dropped);
  }

  function Limit(limit: int): int {
    if limit < MAX_REGIONS then limit else MAX_REGIONS
  }

  function PlanOf(routes: seq<Route>, usual: Direction, active: Option<int>, radius: RadiusPolicy, dist: Distance,
                  merge: real, limit: int): GeofencePlan {
    PlaceAll(Candidates(routes, usual, active, radius), dist, merge, Limit(limit))
  }

  method Plan(routes: seq<Route>, usual: Direction, active: Option<int>, radius: RadiusPolicy, dist: Distance,
              merge: real, limit: int) returns (plan: GeofencePlan)
    ensures plan == PlanOf(routes, usual, active, radius, dist, merge, limit)
  {
    var candidates := ListCandidates(routes, usual, active, radius);
    plan := Cluster(candidates, dist, merge, Limit(limit));
  }

  // ---- what a plan guarantees --------------------------------------------------------------------

  predicate Serves(region: PlannedRegion, c: Candidate, dist: Distance, merge: real) {
    c.role in region.roles && dist(region.center, c.center) <= merge && c.radius <= region.radius
  }

  /** Each candidate is served by a region near it that covers its radius, or was dropped because the plan was full and
      nothing planned is near. */
  ghost predicate Placed(plan: GeofencePlan, c: Candidate, dist: Distance, merge: real, max: int) {
    || (exists i :: 0 <= i < |plan.regions| && Serves(plan.regions[i], c, dist, merge))
    || (&& c.role in plan.dropped && |plan.regions| >= max
        && forall i :: 0 <= i < |plan.regions| ==> dist(plan.regions[i].center, c.center) > merge)
  }

  ghost predicate Apart(plan: GeofencePlan, dist: Distance, merge: real) {
    forall i, j :: 0 <= i < j < |plan.regions| ==> dist(plan.regions[i].center, plan.regions[j].center) > merge
  }

  /** Regions are within the limit and further apart than the merge distance, and every candidate is placed. */
  lemma {:induction false} EveryCandidateIsPlaced(cs: seq<Candidate>, dist: Distance, merge: real, max: int)
    requires merge >= 0.0 && forall x :: dist(x, x) == 0.0
    ensures var plan := PlaceAll(cs, dist, merge, max);
            && (0 <= max ==> |plan.regions| <= max)
            && Apart(plan, dist, merge)
            && forall c :: c in cs ==> Placed(plan, c, dist, merge, max)
  {
    hide Placed, Apart, Place;
    if cs == [] {
      NothingPlaced(dist, merge);
    } else {
      var front, c := cs[..|cs| - 1], cs[|cs| - 1];
      EveryCandidateIsPlaced(front, dist, merge, max);
      var before := PlaceAll(front, dist, merge, max);
      StaysApart(before, c, dist, merge, max);
      NewlyPlaced(before, c, dist, merge, max);
      forall x | x in cs ensures Placed(PlaceAll(cs, dist, merge, max), x, dist, merge, max) {
        if x != c {
          assert cs == front + [c];
          StaysPlaced(before, x, c, dist, merge, max);
        }
      }
    }
  }

  lemma NothingPlaced(dist: Distance, merge: real)
    ensures Apart(GeofencePlan([], []), dist, merge)
  {
  }

  lemma StaysApart(plan: GeofencePlan, c: Candidate, dist: Distance, merge: real, max: int)
    requires Apart(plan, dist, merge)
    ensures Apart(Place(plan, c, dist, merge, max), dist, merge)
    ensures 0 <= max && |plan.regions| <= max ==> |Place(plan, c, dist, merge, max).regions| <= max
  {
  }

  lemma NewlyPlaced(plan: GeofencePlan, c: Candidate, dist: Distance, merge: real, max: int)
    requires merge >= 0.0 && dist(c.center, c.center) == 0.0
    ensures Placed(Place(plan, c, dist, merge, max), c, dist, merge, max)
  {
    var i := Near(plan.regions, c.center, dist, merge);
    var plan' := Place(plan, c, dist, merge, max);
    if i < |plan'.regions| {
      assert Serves(plan'.regions[i], c, dist, merge);
    }
  }

  lemma StaysPlaced(plan: GeofencePlan, x: Candidate, c: Candidate, dist: Distance, merge: real, max: int)
    requires Placed(plan, x, dist, merge, max)
    ensures Placed(Place(plan, c, dist, merge, max), x, dist, merge, max)
  {
    var plan' := Place(plan, c, dist, merge, max);
    if i :| 0 <= i < |plan.regions| && Serves(plan.regions[i], x, dist, merge) {
      assert Serves(plan'.regions[i], x, dist, merge);
    }
  }

  // ---- every role exactly once -------------------------------------------------------------------

  /** The roles of the regions, each as often as it occurs. */
  function RolesOf(regions: seq<PlannedRegion>): multiset<Role> {
    if regions == [] then multiset{} else RolesOf(regions[..|regions| - 1]) + multiset(regions[|regions| - 1].roles)
  }

  function CandidateRoles(cs: seq<Candidate>): (r: seq<Role>)
    ensures |r| == |cs| && forall i :: 0 <= i < |cs| ==> r[i] == cs[i].role
  {
    seq(|cs|, i requires 0 <= i < |cs| => cs[i].role)
  }

  lemma {:induction false} RoleJoined(regions: seq<PlannedRegion>, after: seq<PlannedRegion>, i: nat, role: Role)
    requires i < |regions| == |after|
    requires forall j :: 0 <= j < |regions| && j != i ==> after[j] == regions[j]
    requires multiset(after[i].roles) == multiset(regions[i].roles) + multiset{role}
    ensures RolesOf(after) == RolesOf(regions) + multiset{role}
    decreases |regions|
  {
    var n := |regions| - 1;
    var front, front' := regions[..n], after[..n];
    if i < n {
      RoleJoined(front, front', i, role);
    } else {
      assert front' == front;
    }
    var last, last' := multiset(regions[n].roles), multiset(after[n].roles);
    assert RolesOf(regions) == RolesOf(front) + last;
    assert RolesOf(after) == RolesOf(front') + last';
  }

  lemma {:induction false} RoleIn(regions: seq<PlannedRegion>, i: nat, role: Role)
    requires i < |regions| && role in regions[i].roles
    ensures role in RolesOf(regions)
    decreases |regions|
  {
    var n := |regions| - 1;
    if i < n {
      RoleIn(regions[..n], i, role);
    }
  }

  /** Placing a candidate whose role is new adds that role once, to one region or to the dropped ones. */
  lemma RolePlaced(plan: GeofencePlan, c: Candidate, dist: Distance, merge: real, max: int)
    requires c.role !in RolesOf(plan.regions)
    ensures var plan' := Place(plan, c, dist, merge, max);
            RolesOf(plan'.regions) + multiset(plan'.dropped)
            == RolesOf(plan.regions) + multiset(plan.dropped) + multiset{c.role}
  {
    hide RolesOf;
    var i := Near(plan.regions, c.center, dist, merge);
    if i < |plan.regions| {
      if c.role in plan.regions[i].roles {
        RoleIn(plan.regions, i, c.role);
      }
      RoleJoined(plan.regions, Place(plan, c, dist, merge, max).regions, i, c.role);
    } else if |plan.regions| < max {
      hide Identifier;
      RoleAdded(plan.regions, PlannedRegion(Identifier(c.role), c.center, c.radius, [c.role]));
    }
  }

  lemma RoleAdded(regions: seq<PlannedRegion>, region: PlannedRegion)
    ensures RolesOf(regions + [region]) == RolesOf(regions) + multiset(region.roles)
  {
    assert (regions + [region])[..|regions|] == regions;
  }

  /** Every role lands exactly once, in one region or among the dropped ones. */
  lemma {:induction false} EveryRoleOnce(cs: seq<Candidate>, dist: Distance, merge: real, max: int)
    requires NoRepeats(CandidateRoles(cs))
    ensures var plan := PlaceAll(cs, dist, merge, max);
            RolesOf(plan.regions) + multiset(plan.dropped) == multiset(CandidateRoles(cs))
  {
    hide Place;
    if cs != [] {
      var front, c := cs[..|cs| - 1], cs[|cs| - 1];
      var roles := CandidateRoles(front);
      assert CandidateRoles(cs) == roles + [c.role];
      assert NoRepeats(roles) && c.role !in roles by {
        assert forall i :: 0 <= i < |roles| ==> roles[i] == CandidateRoles(cs)[i];
      }
      EveryRoleOnce(front, dist, merge, max);
      var before := PlaceAll(front, dist, merge, max);
      assert c.role !in multiset(roles);
      RolePlaced(before, c, dist, merge, max);
    }
  }
}
