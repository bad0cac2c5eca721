/** What the phone watches, said of the routes alone: which place stands for each role, which region serves it, and who
    goes without when the limit is reached. */
module GeofencePlaces {
  import opened Basics
  import opened Routes
  import opened Sorting
  import opened Geofence
  import opened GeofenceNames

  // ---- the places of the routes ------------------------------------------------------------------

  /** The place and the radius that belong to a role of the route. */
  ghost predicate IsPlaceOf(route: Route, radius: RadiusPolicy, role: Role, center: Coordinate, reach: real) {
    && role.routeId == route.id
    && (role.Origin? ==> center == route.origin && reach == radius.place)
    && (role.Destination? ==> center == route.destination && reach == radius.place)
    && (role.BoardStop? || role.AlightStop? ==>
          exists leg :: && leg in route.transitLegs && leg.legId == role.legId
                        && center == (if role.BoardStop? then leg.board else leg.alight).coordinate
                        && reach == (if leg.mode == Bus then radius.busStop else radius.railStation))
  }

  ghost predicate IsPlace(routes: seq<Route>, radius: RadiusPolicy, role: Role, center: Coordinate, reach: real) {
    exists route :: route in routes && IsPlaceOf(route, radius, role, center, reach)
  }

  // ---- the order of the roles --------------------------------------------------------------------

  /** The route being recorded, then those of the usual direction, then the smaller id. */
  predicate GoesFirst(a: Route, b: Route, usual: Direction, active: Option<int>) {
    && active != Some(b.id)
    && (|| active == Some(a.id)
        || (a.direction == usual && b.direction != usual)
        || (a.direction == b.direction && a.id < b.id))
  }

  /** The destination is 0; boarding the first leg is 1, alighting from it 2, and so on. */
  ghost predicate IsStep(route: Route, role: Role, n: nat) {
    && role.routeId == route.id
    && (role.Destination? ==> n == 0)
    && (role.BoardStop? ==> exists i: nat :: IsLeg(route, i, role.legId) && n == 2 * i + 1)
    && (role.AlightStop? ==> exists i: nat :: IsLeg(route, i, role.legId) && n == 2 * i + 2)
  }

  predicate IsLeg(route: Route, i: nat, legId: int) {
    i < |route.transitLegs| && route.transitLegs[i].legId == legId
  }

  ghost predicate Follows(route: Route, x: Role, y: Role) {
    exists m: nat, n: nat :: IsStep(route, x, m) && IsStep(route, y, n) && m < n
  }

  ghost predicate Precedes(a: Route, b: Route, usual: Direction, active: Option<int>, x: Role, y: Role) {
    && x.routeId == a.id && y.routeId == b.id
    && if x.Origin? || y.Origin? then x.Origin? && (y.Origin? ==> GoesFirst(a, b, usual, active))
       else GoesFirst(a, b, usual, active) || (a == b && Follows(a, x, y))
  }

  /** Origins come before everything else, then routes, then the steps of a route. */
  ghost predicate Earlier(routes: seq<Route>, usual: Direction, active: Option<int>, x: Role, y: Role) {
    exists a, b :: a in routes && b in routes && Precedes(a, b, usual, active, x, y)
  }

  // ---- the plan ----------------------------------------------------------------------------------

  /** The region is the first one near the place and covers it; the role it was made for does not come later. */
  ghost predicate Watched(plan: GeofencePlan, i: nat, role: Role, center: Coordinate, reach: real, dist: Distance,
                          merge: real) {
    && i < |plan.regions| && role in plan.regions[i].roles && reach <= plan.regions[i].radius
    && dist(plan.regions[i].center, center) <= merge
    && forall j :: 0 <= j < i ==> dist(plan.regions[j].center, center) > merge
  }

  ghost predicate LeftOut(plan: GeofencePlan, role: Role, center: Coordinate, dist: Distance, merge: real, max: int) {
    && role in plan.dropped && |plan.regions| >= max
    && forall j :: 0 <= j < |plan.regions| ==> dist(plan.regions[j].center, center) > merge
  }

  /** What the plan says of one place: a region made for this role or an earlier one serves it, or the limit was reached
      with regions of earlier roles, none of them near. */
  ghost predicate Settled(plan: GeofencePlan, routes: seq<Route>, usual: Direction, active: Option<int>, role: Role,
                          center: Coordinate, reach: real, dist: Distance, merge: real, max: int) {
    || (exists i: nat :: && Watched(plan, i, role, center, reach, dist, merge) && plan.regions[i].roles != []
                         && (role == plan.regions[i].roles[0]
                             || Earlier(routes, usual, active, plan.regions[i].roles[0], role)))
    || (&& LeftOut(plan, role, center, dist, merge, max)
        && forall region :: region in plan.regions ==>
             region.roles != [] && Earlier(routes, usual, active, region.roles[0], role))
  }

  ghost predicate AllSettled(plan: GeofencePlan, routes: seq<Route>, usual: Direction, active: Option<int>,
                             radius: RadiusPolicy, dist: Distance, merge: real, max: int) {
    forall role, center, reach :: IsPlace(routes, radius, role, center, reach) ==>
      Settled(plan, routes, usual, active, role, center, reach, dist, merge, max)
  }

  /** Regions were made in the order of their first roles. */
  ghost predicate MadeInOrder(plan: GeofencePlan, routes: seq<Route>, usual: Direction, active: Option<int>) {
    forall i, j :: 0 <= i < j < |plan.regions| ==>
      && plan.regions[i].roles != [] && plan.regions[j].roles != []
      && Earlier(routes, usual, active, plan.regions[i].roles[0], plan.regions[j].roles[0])
  }

  /** A region stands at the place of its first role, and its radius is that of one of its roles. */
  ghost predicate Rooted(region: PlannedRegion, routes: seq<Route>, radius: RadiusPolicy) {
    && region.roles != [] && region.identifier == Identifier(region.roles[0])
    && (exists reach :: IsPlace(routes, radius, region.roles[0], region.center, reach))
    && (exists role, center :: role in region.roles && IsPlace(routes, radius, role, center, region.radius))
  }

  // ---- clustering a list -------------------------------------------------------------------------

  /** Where the candidate at `k` went; `heads` are the positions of the candidates that regions were made for. */
  ghost predicate Went(plan: GeofencePlan, heads: seq<nat>, cs: seq<Candidate>, k: nat, dist: Distance, merge: real,
                       max: int)
    requires k < |cs| && |heads| == |plan.regions|
  {
    || (exists i: nat :: Watched(plan, i, cs[k].role, cs[k].center, cs[k].radius, dist, merge) && heads[i] <= k)
    || (LeftOut(plan, cs[k].role, cs[k].center, dist, merge, max) && forall i :: 0 <= i < |heads| ==> heads[i] < k)
  }

  /** The region was made for the candidate at `head` and has the radius of one whose role it holds. */
  ghost predicate MadeFor(region: PlannedRegion, head: nat, cs: seq<Candidate>) {
    && head < |cs| && region.roles != [] && region.roles[0] == cs[head].role && region.center == cs[head].center
    && region.identifier == Identifier(cs[head].role)
    && exists c :: c in cs && c.role in region.roles && c.radius == region.radius
  }

  /** The plan of a list, told by positions. */
  ghost predicate Grouped(plan: GeofencePlan, heads: seq<nat>, cs: seq<Candidate>, dist: Distance, merge: real,
                          max: int) {
    && |heads| == |plan.regions|
    && (forall i, j :: 0 <= i < j < |heads| ==> heads[i] < heads[j])
    && (forall i :: 0 <= i < |heads| ==> heads[i] < |cs| && MadeFor(plan.regions[i], heads[i], cs))
    && (forall k: nat :: k < |cs| ==> Went(plan, heads, cs, k, dist, merge, max))
  }

  lemma {:induction false} ListIsGrouped(cs: seq<Candidate>, dist: Distance, merge: real, max: int)
    returns (heads: seq<nat>)
    requires merge >= 0.0 && forall x :: dist(x, x) == 0.0
    ensures Grouped(PlaceAll(cs, dist, merge, max), heads, cs, dist, merge, max)
  {
    hide Identifier, MadeFor, Went, Join;
    if cs == [] {
      heads := [];
    } else {
      hide Grouped, Place;
      var front, c := cs[..|cs| - 1], cs[|cs| - 1];
      var before := ListIsGrouped(front, dist, merge, max);
      assert cs == front + [c];
      heads := NextIsGrouped(PlaceAll(front, dist, merge, max), before, front, c, dist, merge, max);
    }
  }

  lemma NextIsGrouped(plan: GeofencePlan, heads: seq<nat>, cs: seq<Candidate>, c: Candidate, dist: Distance,
                      merge: real, max: int)
    returns (heads': seq<nat>)
    requires Grouped(plan, heads, cs, dist, merge, max)
    requires merge >= 0.0 && dist(c.center, c.center) == 0.0
    ensures Grouped(Place(plan, c, dist, merge, max), heads', cs + [c], dist, merge, max)
  {
    hide Identifier, Went, MadeFor, Near;
    var i, n := Near(plan.regions, c.center, dist, merge), |plan.regions|;
    var plan', cs' := Place(plan, c, dist, merge, max), cs + [c];
    var own := PlannedRegion(Identifier(c.role), c.center, c.radius, [c.role]);
    heads' := if i == n && n < max then heads + [|cs|] else heads;
    forall j | 0 <= j < |heads'| ensures MadeFor(plan'.regions[j], heads'[j], cs') {
      if j == n {
        FirstOfItsRegion(own, cs, c);
      } else {
        StaysMadeFor(plan.regions[j], heads[j], cs, c);
      }
    }
    forall k: nat | k < |cs'| ensures Went(plan', heads', cs', k, dist, merge, max) {
      if k < |cs| {
        WentStays(plan, heads, cs, c, k, dist, merge, max, heads');
      } else {
        NewOneWent(plan, heads, cs, c, dist, merge, max, heads');
      }
    }
  }

  lemma FirstOfItsRegion(region: PlannedRegion, cs: seq<Candidate>, c: Candidate)
    requires region == PlannedRegion(Identifier(c.role), c.center, c.radius, [c.role])
    ensures MadeFor(region, |cs|, cs + [c])
  {
    hide Identifier;
    assert (cs + [c])[|cs|] == c;
    assert c in cs + [c];
  }

  lemma StaysMadeFor(region: PlannedRegion, head: nat, cs: seq<Candidate>, c: Candidate)
    requires MadeFor(region, head, cs)
    ensures MadeFor(region, head, cs + [c]) && MadeFor(Join(region, c), head, cs + [c])
  {
    hide Identifier;
    var cs' := cs + [c];
    var x :| x in cs && x.role in region.roles && x.radius == region.radius;
    assert x in cs' && c in cs' && cs'[head] == cs[head];
    var joined := Join(region, c);
    assert x.role in joined.roles && c.role in joined.roles;
    assert joined.radius == x.radius || joined.radius == c.radius;
  }

  lemma WentStays(plan: GeofencePlan, heads: seq<nat>, cs: seq<Candidate>, c: Candidate, k: nat, dist: Distance,
                  merge: real, max: int, heads': seq<nat>)
    requires k < |cs| && |heads| == |plan.regions| && Went(plan, heads, cs, k, dist, merge, max)
    requires |heads'| == |Place(plan, c, dist, merge, max).regions|
    requires forall i :: 0 <= i < |heads| <= |heads'| ==> heads'[i] == heads[i]
    ensures Went(Place(plan, c, dist, merge, max), heads', cs + [c], k, dist, merge, max)
  {
    hide Identifier;
    var plan', x := Place(plan, c, dist, merge, max), cs[k];
    assert (cs + [c])[k] == x;
    if i: nat :| Watched(plan, i, x.role, x.center, x.radius, dist, merge) && heads[i] <= k {
      assert Watched(plan', i, x.role, x.center, x.radius, dist, merge);
    }
  }

  lemma NewOneWent(plan: GeofencePlan, heads: seq<nat>, cs: seq<Candidate>, c: Candidate, dist: Distance, merge: real,
                   max: int, heads': seq<nat>)
    requires merge >= 0.0 && dist(c.center, c.center) == 0.0 && |heads| == |plan.regions|
    requires forall i :: 0 <= i < |heads| ==> heads[i] < |cs|
    requires heads' == if Near(plan.regions, c.center, dist, merge) == |heads| < max then heads + [|cs|] else heads
    ensures |heads'| == |Place(plan, c, dist, merge, max).regions|
    ensures Went(Place(plan, c, dist, merge, max), heads', cs + [c], |cs|, dist, merge, max)
  {
    hide Identifier;
    var plan' := Place(plan, c, dist, merge, max);
    var i := Near(plan.regions, c.center, dist, merge);
    assert (cs + [c])[|cs|] == c;
    if i < |plan'.regions| {
      assert Watched(plan', i, c.role, c.center, c.radius, dist, merge);
    }
  }

  // ---- the list of candidates --------------------------------------------------------------------

  predicate InRouteOrder(routes: seq<Route>, usual: Direction, active: Option<int>) {
    forall i, j :: 0 <= i < j < |routes| ==> GoesFirst(routes[i], routes[j], usual, active)
  }

  lemma InFrontOf(first: Route, rest: seq<Route>, usual: Direction)
    requires InRouteOrder(rest, usual, None) && forall x :: x in rest ==> GoesFirst(first, x, usual, None)
    ensures InRouteOrder([first] + rest, usual, None)
  {
    hide GoesFirst;
  }

  lemma {:induction false} InsertedAmong(route: Route, sorted: seq<Route>, usual: Direction)
    requires InRouteOrder(sorted, usual, None) && forall r :: r in sorted ==> r.id != route.id
    ensures InRouteOrder(InsertRoute(route, sorted, usual), usual, None)
  {
    if sorted != [] {
      var first, rest := sorted[0], sorted[1..];
      assert sorted == [first] + rest;
      assert forall x :: x in rest ==> GoesFirst(first, x, usual, None);
      if Before(first, route, usual) {
        InsertedAmong(route, rest, usual);
        var r := InsertRoute(route, rest, usual);
        forall x | x in r ensures GoesFirst(first, x, usual, None) {
          assert x in multiset(r);
        }
        InFrontOf(first, r, usual);
      } else {
        assert GoesFirst(route, first, usual, None);
        InFrontOf(route, sorted, usual);
      }
    }
  }

  lemma {:induction false} PrioritizedInOrder(routes: seq<Route>, usual: Direction)
    requires DistinctIds(routes)
    ensures InRouteOrder(Prioritized(routes, usual), usual, None)
  {
    if routes != [] {
      var route, others := routes[0], routes[1..];
      assert routes == [route] + others;
      PrioritizedInOrder(others, usual);
      hide InRouteOrder;
      var sorted := Prioritized(others, usual);
      forall r | r in sorted ensures r.id != route.id {
        assert r in multiset(sorted);
        var i :| 0 <= i < |others| && others[i] == r;
        assert routes[i + 1] == r;
      }
      InsertedAmong(route, sorted, usual);
    }
  }

  lemma {:induction false} NotFoundIsAbsent(routes: seq<Route>, id: int)
    requires RouteIndex(routes, id) == |routes|
    ensures forall r :: r in routes ==> r.id != id
  {
    if routes != [] {
      NotFoundIsAbsent(routes[1..], id);
      assert routes == [routes[0]] + routes[1..];
    }
  }

  lemma ActiveInFront(routes: seq<Route>, usual: Direction, active: Option<int>)
    requires DistinctIds(routes) && InRouteOrder(routes, usual, None)
    ensures InRouteOrder(ActiveFirst(routes, active), usual, active)
  {
    if active.Some? {
      var k := RouteIndex(routes, active.value);
      hide RouteIndex;
      if k == |routes| {
        NotFoundIsAbsent(routes, active.value);
      } else {
        var r := ActiveFirst(routes, active);
        forall i, j | 0 <= i < j < |r| ensures GoesFirst(r[i], r[j], usual, active) {
          assert r[j] == routes[if j <= k then j - 1 else j];
          if i > 0 {
            assert r[i] == routes[if i <= k then i - 1 else i];
          }
        }
      }
    }
  }

  ghost predicate InOrder(cs: seq<Candidate>, routes: seq<Route>, usual: Direction, active: Option<int>) {
    forall i, j :: 0 <= i < j < |cs| ==> Earlier(routes, usual, active, cs[i].role, cs[j].role)
  }

  lemma BothInOrder(xs: seq<Candidate>, ys: seq<Candidate>, routes: seq<Route>, usual: Direction, active: Option<int>)
    requires InOrder(xs, routes, usual, active) && InOrder(ys, routes, usual, active)
    requires forall x, y :: x in xs && y in ys ==> Earlier(routes, usual, active, x.role, y.role)
    ensures InOrder(xs + ys, routes, usual, active)
  {
    hide Earlier;
    var zs := xs + ys;
    forall i, j | 0 <= i < j < |zs| ensures Earlier(routes, usual, active, zs[i].role, zs[j].role) {
      if i < |xs| <= j {
        assert zs[i] == xs[i] && zs[j] == ys[j - |xs|];
        assert xs[i] in xs && ys[j - |xs|] in ys;
      } else if |xs| <= i {
        assert zs[i] == ys[i - |xs|] && zs[j] == ys[j - |xs|];
      }
    }
  }

  /** The candidate is a stop of one of the first legs. */
  ghost predicate IsStopWithin(route: Route, n: nat, c: Candidate) {
    && (c.role.BoardStop? || c.role.AlightStop?) && c.role.routeId == route.id
    && exists i: nat :: i < n && IsLeg(route, i, c.role.legId)
  }

  lemma StopsFollow(route: Route, n: nat, x: Candidate, y: Candidate)
    requires n < |route.transitLegs| && IsStopWithin(route, n, x)
    requires y.role == BoardStop(route.id, route.transitLegs[n].legId)
             || y.role == AlightStop(route.id, route.transitLegs[n].legId)
    ensures Follows(route, x.role, y.role)
  {
    var i: nat :| i < n && IsLeg(route, i, x.role.legId);
    assert IsLeg(route, n, y.role.legId);
    assert IsStep(route, x.role, if x.role.BoardStop? then 2 * i + 1 else 2 * i + 2);
    assert IsStep(route, y.role, if y.role.BoardStop? then 2 * n + 1 else 2 * n + 2);
  }

  function LegStops(route: Route, n: nat, radius: RadiusPolicy): seq<Candidate>
    requires n < |route.transitLegs|
  {
    var leg := route.transitLegs[n];
    var r := radius.StopRadius(leg.mode);
    [Candidate(BoardStop(route.id, leg.legId), leg.board.coordinate, r),
     Candidate(AlightStop(route.id, leg.legId), leg.alight.coordinate, r)]
  }

  lemma StopsOfLeg(routes: seq<Route>, usual: Direction, active: Option<int>, radius: RadiusPolicy, route: Route,
                   n: nat)
    requires route in routes && n < |route.transitLegs|
    ensures var cs := LegStops(route, n, radius);
            && |cs| == 2 && InOrder(cs, routes, usual, active)
            && cs[0].role == BoardStop(route.id, route.transitLegs[n].legId)
            && cs[1].role == AlightStop(route.id, route.transitLegs[n].legId)
            && forall c :: c in cs ==>
                 IsStopWithin(route, n + 1, c) && IsPlaceOf(route, radius, c.role, c.center, c.radius)
  {
    var leg, cs := route.transitLegs[n], LegStops(route, n, radius);
    assert leg in route.transitLegs && IsLeg(route, n, leg.legId);
    assert IsStep(route, cs[0].role, 2 * n + 1) && IsStep(route, cs[1].role, 2 * n + 2);
    FollowsIsEarlier(routes, usual, active, route, cs[0].role, cs[1].role);
  }

  /** The stops of the first legs: in order, at their places, and all of them. */
  ghost predicate AreStops(cs: seq<Candidate>, routes: seq<Route>, usual: Direction, active: Option<int>,
                           radius: RadiusPolicy, route: Route, n: nat)
    requires n <= |route.transitLegs|
  {
    && InOrder(cs, routes, usual, active)
    && (forall c :: c in cs ==> IsStopWithin(route, n, c) && IsPlaceOf(route, radius, c.role, c.center, c.radius))
    && forall i: nat :: i < n ==> HasStopsOf(cs, route, i)
  }

  ghost predicate HasStopsOf(cs: seq<Candidate>, route: Route, i: nat)
    requires i < |route.transitLegs|
  {
    && BoardStop(route.id, route.transitLegs[i].legId) in CandidateRoles(cs)
    && AlightStop(route.id, route.transitLegs[i].legId) in CandidateRoles(cs)
  }

  lemma {:induction false} StopsOfLegs(routes: seq<Route>, usual: Direction, active: Option<int>, radius: RadiusPolicy,
                                       route: Route, n: nat)
    requires route in routes && n <= |route.transitLegs|
    ensures AreStops(Stops(route.id, route.transitLegs[..n], radius), routes, usual, active, radius, route, n)
  {
    if n > 0 {
      hide AreStops;
      StopsOfLegs(routes, usual, active, radius, route, n - 1);
      assert route.transitLegs[..n][..n - 1] == route.transitLegs[..n - 1];
      MoreStops(Stops(route.id, route.transitLegs[..n - 1], radius), routes, usual, active, radius, route, n - 1);
    }
  }

  lemma MoreStops(front: seq<Candidate>, routes: seq<Route>, usual: Direction, active: Option<int>,
                  radius: RadiusPolicy, route: Route, n: nat)
    requires route in routes && n < |route.transitLegs|
    requires AreStops(front, routes, usual, active, radius, route, n)
    ensures AreStops(front + LegStops(route, n, radius), routes, usual, active, radius, route, n + 1)
  {
    hide Earlier, InOrder, IsPlaceOf, IsStopWithin, HasStopsOf, LegStops;
    var added := LegStops(route, n, radius);
    StopsOfLeg(routes, usual, active, radius, route, n);
    forall x, y | x in front && y in added ensures Earlier(routes, usual, active, x.role, y.role) {
      StopsFollow(route, n, x, y);
      StopNames(route, n, x);
      FollowsIsEarlier(routes, usual, active, route, x.role, y.role);
    }
    BothInOrder(front, added, routes, usual, active);
    forall c | c in front + added
      ensures IsStopWithin(route, n + 1, c) && IsPlaceOf(route, radius, c.role, c.center, c.radius)
    {
      if c in front {
        StillWithin(route, n, c);
      }
    }
    RolesConcat(front, added);
    forall i: nat | i < n + 1 ensures HasStopsOf(front + added, route, i) {
      HasStopsToo(front, added, route, i, n);
    }
  }

  lemma HasStopsToo(front: seq<Candidate>, added: seq<Candidate>, route: Route, i: nat, n: nat)
    requires i <= n < |route.transitLegs| && |added| == 2
    requires added[0].role == BoardStop(route.id, route.transitLegs[n].legId)
    requires added[1].role == AlightStop(route.id, route.transitLegs[n].legId)
    requires i < n ==> HasStopsOf(front, route, i)
    ensures HasStopsOf(front + added, route, i)
  {
    RolesConcat(front, added);
    assert CandidateRoles(added)[0] == added[0].role && CandidateRoles(added)[1] == added[1].role;
  }

  lemma StopNames(route: Route, n: nat, x: Candidate)
    requires IsStopWithin(route, n, x)
    ensures !x.role.Origin? && x.role.routeId == route.id
  {
  }

  lemma StillWithin(route: Route, n: nat, c: Candidate)
    requires IsStopWithin(route, n, c)
    ensures IsStopWithin(route, n + 1, c)
  {
  }

  lemma FollowsIsEarlier(routes: seq<Route>, usual: Direction, active: Option<int>, route: Route, x: Role, y: Role)
    requires route in routes && Follows(route, x, y) && !x.Origin? && !y.Origin?
    requires x.routeId == route.id == y.routeId
    ensures Earlier(routes, usual, active, x, y)
  {
    hide Follows;
    assert Precedes(route, route, usual, active, x, y);
  }

  /** The places of the first routes other than their origins: in order, at their places, and all of them. */
  ghost predicate AreRest(cs: seq<Candidate>, ordered: seq<Route>, usual: Direction, active: Option<int>,
                          radius: RadiusPolicy, n: nat)
    requires n <= |ordered|
  {
    && InOrder(cs, ordered, usual, active)
    && (forall c :: c in cs ==> !c.role.Origin? && exists i :: 0 <= i < n && IsCandidateOf(ordered[i], radius, c))
    && forall i: nat :: i < n ==> HasPlacesOf(cs, ordered[i])
  }

  ghost predicate IsCandidateOf(route: Route, radius: RadiusPolicy, c: Candidate) {
    IsPlaceOf(route, radius, c.role, c.center, c.radius)
  }

  ghost predicate HasPlacesOf(cs: seq<Candidate>, route: Route) {
    && Destination(route.id) in CandidateRoles(cs)
    && forall i: nat :: i < |route.transitLegs| ==> HasStopsOf(cs, route, i)
  }

  lemma DestinationFollows(route: Route, n: nat, x: Role, y: Candidate)
    requires x == Destination(route.id) && n <= |route.transitLegs| && IsStopWithin(route, n, y)
    ensures Follows(route, x, y.role)
  {
    var i: nat :| i < n && IsLeg(route, i, y.role.legId);
    assert IsStep(route, x, 0);
    assert IsStep(route, y.role, if y.role.BoardStop? then 2 * i + 1 else 2 * i + 2);
  }

  lemma PlacesOfRoute(ordered: seq<Route>, usual: Direction, active: Option<int>, radius: RadiusPolicy, route: Route)
    requires route in ordered
    ensures var cs := PlacesOf(route, radius);
            && InOrder(cs, ordered, usual, active) && HasPlacesOf(cs, route)
            && forall c :: c in cs ==> !c.role.Origin? && IsCandidateOf(route, radius, c)
  {
    var legs := route.transitLegs;
    StopsOfLegs(ordered, usual, active, radius, route, |legs|);
    assert legs[..|legs|] == legs;
    var stops := Stops(route.id, legs, radius);
    var first := [Candidate(Destination(route.id), route.destination, radius.place)];
    hide Stops, Earlier, IsPlaceOf, IsStopWithin;
    forall x, y | x in first && y in stops ensures Earlier(ordered, usual, active, x.role, y.role) {
      DestinationFollows(route, |legs|, x.role, y);
      FollowsIsEarlier(ordered, usual, active, route, x.role, y.role);
    }
    BothInOrder(first, stops, ordered, usual, active);
    RolesConcat(first, stops);
    assert CandidateRoles(first)[0] == Destination(route.id);
    forall c | c in PlacesOf(route, radius) ensures !c.role.Origin? && IsCandidateOf(route, radius, c) {
      if c in stops {
        StopNames(route, |legs|, c);
      } else {
        DestinationPlace(route, radius, c);
      }
    }
    forall i: nat | i < |legs| ensures HasStopsOf(PlacesOf(route, radius), route, i) {
      assert HasStopsOf(stops, route, i);
    }
  }

  lemma DestinationPlace(route: Route, radius: RadiusPolicy, c: Candidate)
    requires c == Candidate(Destination(route.id), route.destination, radius.place)
    ensures IsCandidateOf(route, radius, c)
  {
  }

  lemma RestNext(ordered: seq<Route>, radius: RadiusPolicy, n: nat)
    requires n < |ordered|
    ensures Rest(ordered[..n + 1], radius) == Rest(ordered[..n], radius) + PlacesOf(ordered[n], radius)
  {
    hide Stops;
    assert ordered[..n + 1][..n] == ordered[..n];
  }

  lemma NoRest(ordered: seq<Route>, usual: Direction, active: Option<int>, radius: RadiusPolicy)
    ensures AreRest(Rest(ordered[..0], radius), ordered, usual, active, radius, 0)
  {
    hide Earlier, IsCandidateOf, HasPlacesOf;
  }

  lemma {:induction false} RestOfRoutes(ordered: seq<Route>, usual: Direction, active: Option<int>,
                                        radius: RadiusPolicy, n: nat)
    requires n <= |ordered| && InRouteOrder(ordered, usual, active)
    ensures AreRest(Rest(ordered[..n], radius), ordered, usual, active, radius, n)
  {
    hide *;
    if n == 0 {
      NoRest(ordered, usual, active, radius);
    } else {
      RestNext(ordered, radius, n - 1);
      RestOfRoutes(ordered, usual, active, radius, n - 1);
      MoreRest(Rest(ordered[..n - 1], radius), ordered, usual, active, radius, n - 1);
    }
  }

  lemma MoreRest(front: seq<Candidate>, ordered: seq<Route>, usual: Direction, active: Option<int>,
                 radius: RadiusPolicy, n: nat)
    requires n < |ordered| && InRouteOrder(ordered, usual, active)
    requires AreRest(front, ordered, usual, active, radius, n)
    ensures AreRest(front + PlacesOf(ordered[n], radius), ordered, usual, active, radius, n + 1)
  {
    hide Earlier, InOrder, IsCandidateOf, HasPlacesOf, PlacesOf;
    var added := PlacesOf(ordered[n], radius);
    PlacesOfRoute(ordered, usual, active, radius, ordered[n]);
    forall x, y | x in front && y in added ensures Earlier(ordered, usual, active, x.role, y.role) {
      var i :| 0 <= i < n && IsCandidateOf(ordered[i], radius, x);
      LaterRoute(ordered, usual, active, radius, i, n, x, y);
    }
    BothInOrder(front, added, ordered, usual, active);
    var both := front + added;
    forall c | c in both ensures !c.role.Origin? && exists i :: 0 <= i < n + 1 && IsCandidateOf(ordered[i], radius, c) {
      if c in front {
        var i :| 0 <= i < n && IsCandidateOf(ordered[i], radius, c);
        assert i < n + 1;
      } else {
        assert IsCandidateOf(ordered[n], radius, c);
      }
    }
    forall i: nat | i < n + 1 ensures HasPlacesOf(both, ordered[i]) {
      HasPlacesToo(front, added, ordered[i]);
    }
  }

  lemma HasPlacesToo(front: seq<Candidate>, added: seq<Candidate>, route: Route)
    requires HasPlacesOf(front, route) || HasPlacesOf(added, route)
    ensures HasPlacesOf(front + added, route)
  {
    RolesConcat(front, added);
    forall i: nat | i < |route.transitLegs| ensures HasStopsOf(front + added, route, i) {
      assert HasStopsOf(front, route, i) || HasStopsOf(added, route, i);
    }
  }

  lemma LaterRoute(ordered: seq<Route>, usual: Direction, active: Option<int>, radius: RadiusPolicy, i: nat, n: nat,
                   x: Candidate, y: Candidate)
    requires i < n < |ordered| && InRouteOrder(ordered, usual, active) && !x.role.Origin? && !y.role.Origin?
    requires IsCandidateOf(ordered[i], radius, x) && IsCandidateOf(ordered[n], radius, y)
    ensures Earlier(ordered, usual, active, x.role, y.role)
  {
    hide GoesFirst, Follows;
    assert Precedes(ordered[i], ordered[n], usual, active, x.role, y.role);
  }

  /** The candidates: in order, at their places, and one for every role. */
  ghost predicate AreAll(cs: seq<Candidate>, routes: seq<Route>, usual: Direction, active: Option<int>,
                         radius: RadiusPolicy) {
    && InOrder(cs, routes, usual, active)
    && (forall c :: c in cs ==> IsPlace(routes, radius, c.role, c.center, c.radius))
    && forall route :: route in routes ==> Origin(route.id) in CandidateRoles(cs) && HasPlacesOf(cs, route)
  }

  lemma OrderedCandidates(ordered: seq<Route>, usual: Direction, active: Option<int>, radius: RadiusPolicy)
    requires InRouteOrder(ordered, usual, active)
    ensures AreAll(Origins(ordered, radius) + Rest(ordered, radius), ordered, usual, active, radius)
  {
    RestOfRoutes(ordered, usual, active, radius, |ordered|);
    assert ordered[..|ordered|] == ordered;
    OriginsInOrder(ordered, usual, active, radius);
    hide AreAll, AreRest, InOrder, Rest;
    AllTogether(Rest(ordered, radius), ordered, usual, active, radius);
  }

  lemma AllTogether(rest: seq<Candidate>, ordered: seq<Route>, usual: Direction, active: Option<int>,
                    radius: RadiusPolicy)
    requires InOrder(Origins(ordered, radius), ordered, usual, active)
    requires AreRest(rest, ordered, usual, active, radius, |ordered|)
    ensures AreAll(Origins(ordered, radius) + rest, ordered, usual, active, radius)
  {
    hide InOrder, HasPlacesOf, Earlier, IsPlace, IsPlaceOf, IsCandidateOf, CandidateRoles;
    var front := Origins(ordered, radius);
    forall x, y | x in front && y in rest ensures Earlier(ordered, usual, active, x.role, y.role) {
      var i :| 0 <= i < |ordered| && front[i] == x;
      var j :| 0 <= j < |ordered| && IsCandidateOf(ordered[j], radius, y);
      OriginIsEarlier(ordered, usual, active, radius, i, j, x, y);
    }
    BothInOrder(front, rest, ordered, usual, active);
    RolesConcat(front, rest);
    forall c | c in front + rest ensures IsPlace(ordered, radius, c.role, c.center, c.radius) {
      if c in front {
        var i: nat :| i < |ordered| && front[i] == c;
        OriginPlace(ordered, radius, i);
      } else {
        var j: nat :| j < |ordered| && IsCandidateOf(ordered[j], radius, c);
        PlaceOfOne(ordered, radius, j, c);
      }
    }
    forall route | route in ordered
      ensures Origin(route.id) in CandidateRoles(front + rest) && HasPlacesOf(front + rest, route)
    {
      var i: nat :| i < |ordered| && ordered[i] == route;
      assert CandidateRoles(front)[i] == Origin(route.id);
      HasPlacesToo(front, rest, route);
    }
  }

  lemma OriginPlace(ordered: seq<Route>, radius: RadiusPolicy, i: nat)
    requires i < |ordered|
    ensures var c := Origins(ordered, radius)[i]; IsPlace(ordered, radius, c.role, c.center, c.radius)
  {
    var c := Origins(ordered, radius)[i];
    assert IsPlaceOf(ordered[i], radius, c.role, c.center, c.radius);
  }

  lemma PlaceOfOne(ordered: seq<Route>, radius: RadiusPolicy, j: nat, c: Candidate)
    requires j < |ordered| && IsCandidateOf(ordered[j], radius, c)
    ensures IsPlace(ordered, radius, c.role, c.center, c.radius)
  {
    hide IsPlaceOf;
  }

  lemma OriginIsEarlier(ordered: seq<Route>, usual: Direction, active: Option<int>, radius: RadiusPolicy, i: nat,
                        j: nat, x: Candidate, y: Candidate)
    requires i < |ordered| && j < |ordered| && x == Origins(ordered, radius)[i]
    requires IsCandidateOf(ordered[j], radius, y) && !y.role.Origin?
    ensures Earlier(ordered, usual, active, x.role, y.role)
  {
    hide GoesFirst, Follows;
    assert Precedes(ordered[i], ordered[j], usual, active, x.role, y.role);
  }

  lemma OriginsInOrder(ordered: seq<Route>, usual: Direction, active: Option<int>, radius: RadiusPolicy)
    requires InRouteOrder(ordered, usual, active)
    ensures InOrder(Origins(ordered, radius), ordered, usual, active)
  {
    var cs := Origins(ordered, radius);
    forall i, j | 0 <= i < j < |cs| ensures Earlier(ordered, usual, active, cs[i].role, cs[j].role) {
      hide GoesFirst, Follows;
      assert Precedes(ordered[i], ordered[j], usual, active, cs[i].role, cs[j].role);
    }
  }

  lemma SameRoutes(a: seq<Route>, b: seq<Route>)
    requires multiset(a) == multiset(b)
    ensures forall route :: route in a <==> route in b
  {
    forall route ensures route in a <==> route in b {
      assert route in multiset(a) <==> route in multiset(b);
    }
  }

  lemma AllCandidates(routes: seq<Route>, usual: Direction, active: Option<int>, radius: RadiusPolicy)
    requires DistinctIds(routes) && forall route :: route in routes ==> route.Distinct()
    ensures AreAll(Candidates(routes, usual, active, radius), routes, usual, active, radius)
  {
    hide Route.Distinct, AreAll, InRouteOrder, Origins, Rest;
    var sorted := Prioritized(routes, usual);
    var ordered := ActiveFirst(sorted, active);
    PrioritizedInOrder(routes, usual);
    PermutedStayDistinct(routes, sorted);
    ActiveInFront(sorted, usual, active);
    ActiveFirstPermutes(sorted, active);
    OrderedCandidates(ordered, usual, active, radius);
    SameRoutes(routes, ordered);
    OrderIsForgotten(Candidates(routes, usual, active, radius), ordered, routes, usual, active, radius);
  }

  lemma OrderIsForgotten(cs: seq<Candidate>, ordered: seq<Route>, routes: seq<Route>, usual: Direction,
                         active: Option<int>, radius: RadiusPolicy)
    requires AreAll(cs, ordered, usual, active, radius) && forall route :: route in routes <==> route in ordered
    ensures AreAll(cs, routes, usual, active, radius)
  {
    hide HasPlacesOf, IsPlaceOf, Precedes;
    forall x, y | Earlier(ordered, usual, active, x, y) ensures Earlier(routes, usual, active, x, y) {
      var a, b :| a in ordered && b in ordered && Precedes(a, b, usual, active, x, y);
    }
  }

  // ---- what a plan of routes says ----------------------------------------------------------------

  /** Every place of the routes has a candidate. */
  lemma PlaceHasCandidate(cs: seq<Candidate>, routes: seq<Route>, usual: Direction, active: Option<int>,
                          radius: RadiusPolicy, role: Role, center: Coordinate, reach: real)
    returns (k: nat)
    requires AreAll(cs, routes, usual, active, radius) && IsPlace(routes, radius, role, center, reach)
    ensures k < |cs| && cs[k].role == role
  {
    hide InOrder;
    var route :| route in routes && IsPlaceOf(route, radius, role, center, reach);
    if role.BoardStop? || role.AlightStop? {
      var i: nat :| i < |route.transitLegs| && route.transitLegs[i].legId == role.legId;
      assert HasStopsOf(cs, route, i);
    }
    k :| k < |cs| && CandidateRoles(cs)[k] == role;
  }

  lemma SameRoute(routes: seq<Route>, a: Route, b: Route)
    requires DistinctIds(routes) && a in routes && b in routes && a.id == b.id
    ensures a == b
  {
    var i :| 0 <= i < |routes| && routes[i] == a;
    var j :| 0 <= j < |routes| && routes[j] == b;
  }

  lemma SameLeg(route: Route, x: TransitLeg, y: TransitLeg)
    requires route.Distinct() && x in route.transitLegs && y in route.transitLegs && x.legId == y.legId
    ensures x == y
  {
    var i :| 0 <= i < |route.transitLegs| && route.transitLegs[i] == x;
    var j :| 0 <= j < |route.transitLegs| && route.transitLegs[j] == y;
  }

  lemma OnePlaceOnly(routes: seq<Route>, radius: RadiusPolicy, role: Role, c1: Coordinate, r1: real, c2: Coordinate,
                     r2: real)
    requires DistinctIds(routes) && forall route :: route in routes ==> route.Distinct()
    requires IsPlace(routes, radius, role, c1, r1) && IsPlace(routes, radius, role, c2, r2)
    ensures c1 == c2 && r1 == r2
  {
    var a :| a in routes && IsPlaceOf(a, radius, role, c1, r1);
    var b :| b in routes && IsPlaceOf(b, radius, role, c2, r2);
    SameRoute(routes, a, b);
    hide DistinctIds, Route.Distinct;
    if role.BoardStop? || role.AlightStop? {
      var x :| x in a.transitLegs && x.legId == role.legId
               && c1 == (if role.BoardStop? then x.board else x.alight).coordinate
               && r1 == if x.mode == Bus then radius.busStop else radius.railStation;
      var y :| y in a.transitLegs && y.legId == role.legId
               && c2 == (if role.BoardStop? then y.board else y.alight).coordinate
               && r2 == if y.mode == Bus then radius.busStop else radius.railStation;
      SameLeg(a, x, y);
    }
  }

  lemma {:induction false} WithinLimit(cs: seq<Candidate>, dist: Distance, merge: real, max: int)
    ensures |PlaceAll(cs, dist, merge, max).regions| <= if max < 0 then 0 else max
  {
    hide Identifier, Join;
    if cs != [] {
      WithinLimit(cs[..|cs| - 1], dist, merge, max);
    }
  }

  lemma WentMeansSettled(plan: GeofencePlan, heads: seq<nat>, cs: seq<Candidate>, k: nat, routes: seq<Route>,
                         usual: Direction, active: Option<int>, radius: RadiusPolicy, dist: Distance, merge: real,
                         max: int)
    requires Grouped(plan, heads, cs, dist, merge, max) && k < |cs| && InOrder(cs, routes, usual, active)
    ensures Settled(plan, routes, usual, active, cs[k].role, cs[k].center, cs[k].radius, dist, merge, max)
  {
    hide Earlier, LeftOut, Identifier;
    assert Went(plan, heads, cs, k, dist, merge, max);
    if i: nat :| Watched(plan, i, cs[k].role, cs[k].center, cs[k].radius, dist, merge) && heads[i] <= k {
      assert MadeFor(plan.regions[i], heads[i], cs);
    } else {
      forall region | region in plan.regions
        ensures region.roles != [] && Earlier(routes, usual, active, region.roles[0], cs[k].role)
      {
        var i :| 0 <= i < |plan.regions| && plan.regions[i] == region;
        assert MadeFor(plan.regions[i], heads[i], cs);
      }
    }
  }

  lemma MadeMeansRooted(region: PlannedRegion, head: nat, cs: seq<Candidate>, routes: seq<Route>, usual: Direction,
                        active: Option<int>, radius: RadiusPolicy)
    requires MadeFor(region, head, cs) && AreAll(cs, routes, usual, active, radius)
    ensures Rooted(region, routes, radius)
  {
    hide Identifier, IsPlace, InOrder, HasPlacesOf;
    assert cs[head] in cs;
    var c :| c in cs && c.role in region.roles && c.radius == region.radius;
    assert IsPlace(routes, radius, c.role, c.center, c.radius);
    assert IsPlace(routes, radius, cs[head].role, cs[head].center, cs[head].radius);
  }

  /** For every set of routes: no more than 20 regions, each at the place of its first role and no wider than its widest
      role asks for, made in the order of those roles; and every origin, destination and stop is watched by the first
      region near it, or left out because earlier ones had used up the limit. */
  lemma PlanMeans(routes: seq<Route>, usual: Direction, active: Option<int>, radius: RadiusPolicy, dist: Distance,
                  merge: real, limit: int)
    requires DistinctIds(routes) && forall route :: route in routes ==> route.Distinct()
    requires merge >= 0.0 && forall x :: dist(x, x) == 0.0
    ensures var plan := PlanOf(routes, usual, active, radius, dist, merge, limit);
            && |plan.regions| <= 20 && (0 <= limit ==> |plan.regions| <= limit) && (limit < 0 ==> plan.regions == [])
            && (forall region :: region in plan.regions ==> Rooted(region, routes, radius))
            && MadeInOrder(plan, routes, usual, active)
            && AllSettled(plan, routes, usual, active, radius, dist, merge, if limit < 20 then limit else 20)
  {
    hide Candidates, AllSettled, MadeInOrder, Rooted, AreAll, Route.Distinct, DistinctIds, Place, Grouped;
    var cs, max := Candidates(routes, usual, active, radius), if limit < 20 then limit else 20;
    WithinLimit(cs, dist, merge, max);
    AllCandidates(routes, usual, active, radius);
    var heads := ListIsGrouped(cs, dist, merge, max);
    var plan := PlaceAll(cs, dist, merge, max);
    RegionsAreRooted(plan, heads, cs, routes, usual, active, radius, dist, merge, max);
    PlacesAreSettled(plan, heads, cs, routes, usual, active, radius, dist, merge, max);
  }

  lemma RegionsAreRooted(plan: GeofencePlan, heads: seq<nat>, cs: seq<Candidate>, routes: seq<Route>, usual: Direction,
                         active: Option<int>, radius: RadiusPolicy, dist: Distance, merge: real, max: int)
    requires Grouped(plan, heads, cs, dist, merge, max) && AreAll(cs, routes, usual, active, radius)
    ensures forall region :: region in plan.regions ==> Rooted(region, routes, radius)
    ensures MadeInOrder(plan, routes, usual, active)
  {
    hide Earlier, Rooted, Identifier, Went;
    forall region | region in plan.regions ensures Rooted(region, routes, radius) {
      var i :| 0 <= i < |plan.regions| && plan.regions[i] == region;
      MadeMeansRooted(region, heads[i], cs, routes, usual, active, radius);
    }
    forall i, j | 0 <= i < j < |plan.regions|
      ensures plan.regions[i].roles != [] && plan.regions[j].roles != []
      ensures Earlier(routes, usual, active, plan.regions[i].roles[0], plan.regions[j].roles[0])
    {
      assert MadeFor(plan.regions[i], heads[i], cs) && MadeFor(plan.regions[j], heads[j], cs);
    }
  }

  lemma PlacesAreSettled(plan: GeofencePlan, heads: seq<nat>, cs: seq<Candidate>, routes: seq<Route>, usual: Direction,
                         active: Option<int>, radius: RadiusPolicy, dist: Distance, merge: real, max: int)
    requires DistinctIds(routes) && forall route :: route in routes ==> route.Distinct()
    requires Grouped(plan, heads, cs, dist, merge, max) && AreAll(cs, routes, usual, active, radius)
    ensures AllSettled(plan, routes, usual, active, radius, dist, merge, max)
  {
    hide Settled, IsPlace, AreAll, Grouped, Route.Distinct, DistinctIds;
    forall role, center, reach | IsPlace(routes, radius, role, center, reach)
      ensures Settled(plan, routes, usual, active, role, center, reach, dist, merge, max)
    {
      PlaceIsSettled(plan, heads, cs, routes, usual, active, radius, dist, merge, max, role, center, reach);
    }
  }

  lemma PlaceIsSettled(plan: GeofencePlan, heads: seq<nat>, cs: seq<Candidate>, routes: seq<Route>, usual: Direction,
                       active: Option<int>, radius: RadiusPolicy, dist: Distance, merge: real, max: int, role: Role,
                       center: Coordinate, reach: real)
    requires DistinctIds(routes) && forall route :: route in routes ==> route.Distinct()
    requires Grouped(plan, heads, cs, dist, merge, max) && AreAll(cs, routes, usual, active, radius)
    requires IsPlace(routes, radius, role, center, reach)
    ensures Settled(plan, routes, usual, active, role, center, reach, dist, merge, max)
  {
    hide Settled, IsPlace, Earlier, Route.Distinct, Grouped, DistinctIds, InOrder, HasPlacesOf;
    var k := PlaceHasCandidate(cs, routes, usual, active, radius, role, center, reach);
    assert cs[k] in cs;
    OnePlaceOnly(routes, radius, role, center, reach, cs[k].center, cs[k].radius);
    WentMeansSettled(plan, heads, cs, k, routes, usual, active, radius, dist, merge, max);
  }

  // ---- who goes without --------------------------------------------------------------------------

  /** A role that was left out is one of the routes' and in no region. */
  lemma DroppedRole(routes: seq<Route>, usual: Direction, active: Option<int>, radius: RadiusPolicy, dist: Distance,
                    merge: real, limit: int, role: Role)
    returns (center: Coordinate, reach: real)
    requires DistinctIds(routes) && forall route :: route in routes ==> route.Distinct()
    requires role in PlanOf(routes, usual, active, radius, dist, merge, limit).dropped
    ensures IsPlace(routes, radius, role, center, reach)
    ensures forall region :: region in PlanOf(routes, usual, active, radius, dist, merge, limit).regions ==>
              role !in region.roles
  {
    hide PlanOf, IsPlace, InOrder, HasPlacesOf, Route.Distinct, Candidates, RolesOf;
    var cs := Candidates(routes, usual, active, radius);
    var plan := PlanOf(routes, usual, active, radius, dist, merge, limit);
    PlanIsSound(routes, usual, active, radius, dist, merge, limit);
    CandidatesDistinct(routes, usual, active, radius);
    AllCandidates(routes, usual, active, radius);
    NoRepeatsCount(CandidateRoles(cs), role);
    assert role in multiset(plan.dropped);
    assert role in multiset(CandidateRoles(cs));
    var k :| 0 <= k < |cs| && CandidateRoles(cs)[k] == role;
    assert cs[k] in cs;
    center, reach := cs[k].center, cs[k].radius;
    forall region | region in plan.regions ensures role !in region.roles {
      if role in region.roles {
        var i: nat :| i < |plan.regions| && plan.regions[i] == region;
        RoleIn(plan.regions, i, role);
      }
    }
  }

  lemma EarlierMeans(routes: seq<Route>, usual: Direction, active: Option<int>, x: Role, y: Role)
    requires DistinctIds(routes) && Earlier(routes, usual, active, x, y)
    ensures y.Origin? ==> x.Origin?
    ensures active == Some(y.routeId) ==> x.Origin? || x.routeId == y.routeId
    ensures forall a, b :: a in routes && b in routes && a.id == x.routeId && b.id == y.routeId ==>
              b.direction == usual && !x.Origin? ==> a.direction == usual || active == Some(a.id)
  {
    hide Follows;
    var a, b :| a in routes && b in routes && Precedes(a, b, usual, active, x, y);
    forall c | c in routes && c.id == a.id ensures c == a {
      SameRoute(routes, a, c);
    }
    forall c | c in routes && c.id == b.id ensures c == b {
      SameRoute(routes, b, c);
    }
  }

  /** An origin is left out only where all regions are of origins; a place of the route being recorded only where no
      place of another route but an origin has a region of its own; and a place of a route of the usual direction only
      where no such place of a route of the other direction has one, unless it is being recorded. */
  lemma LeftOutLast(routes: seq<Route>, usual: Direction, active: Option<int>, radius: RadiusPolicy, dist: Distance,
                    merge: real, limit: int, role: Role, region: PlannedRegion)
    requires DistinctIds(routes) && forall route :: route in routes ==> route.Distinct()
    requires merge >= 0.0 && forall x :: dist(x, x) == 0.0
    requires var plan := PlanOf(routes, usual, active, radius, dist, merge, limit);
             role in plan.dropped && region in plan.regions
    ensures region.roles != [] && role !in region.roles
    ensures var first := region.roles[0];
            && (role.Origin? ==> first.Origin?)
            && (active == Some(role.routeId) ==> first.Origin? || first.routeId == role.routeId)
            && forall a, b :: a in routes && b in routes && a.id == first.routeId && b.id == role.routeId ==>
                 b.direction == usual && !first.Origin? ==> a.direction == usual || active == Some(a.id)
  {
    hide PlanOf, IsPlace, Earlier, Rooted, DistinctIds, Route.Distinct;
    var plan := PlanOf(routes, usual, active, radius, dist, merge, limit);
    var center, reach := DroppedRole(routes, usual, active, radius, dist, merge, limit, role);
    PlanMeans(routes, usual, active, radius, dist, merge, limit);
    assert Settled(plan, routes, usual, active, role, center, reach, dist, merge, if limit < 20 then limit else 20);
    assert region.roles != [] && Earlier(routes, usual, active, region.roles[0], role);
    EarlierMeans(routes, usual, active, region.roles[0], role);
  }
}
