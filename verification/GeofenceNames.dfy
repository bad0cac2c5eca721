/** A region's identifier comes from its first role, and no two regions of a plan share one: what the phone calls a
    region always leads back to that region's roles. */
module GeofenceNames {
  import opened Basics
  import opened Routes
  import opened Sorting
  import opened Geofence

  // ---- identifiers -------------------------------------------------------------------------------

  predicate IsDigit(c: char) {
    '0' <= c <= '9'
  }

  lemma {:induction false} DigitsAreDigits(n: nat)
    ensures Digits(n) != [] && forall c :: c in Digits(n) ==> IsDigit(c)
  {
    if n >= 10 {
      DigitsAreDigits(n / 10);
    }
  }

  lemma {:induction false} DigitsInjective(a: nat, b: nat)
    requires Digits(a) == Digits(b)
    ensures a == b
  {
    var s := Digits(a);
    DigitsAreDigits(a / 10);
    DigitsAreDigits(b / 10);
    if a >= 10 && b >= 10 {
      assert s[..|s| - 1] == Digits(a / 10) == Digits(b / 10);
      assert s[|s| - 1] == Digit(a % 10) == Digit(b % 10);
      DigitsInjective(a / 10, b / 10);
    } else {
      assert |s| == 1 <==> a < 10;
      assert |s| == 1 <==> b < 10;
    }
  }

  lemma DecimalInjective(a: int, b: int)
    requires Decimal(a) == Decimal(b)
    ensures a == b
  {
    var s := Decimal(a);
    DigitsAreDigits(if a < 0 then -a else a);
    DigitsAreDigits(if b < 0 then -b else b);
    assert s[0] in s;
    assert a < 0 <==> !IsDigit(s[0]);
    assert b < 0 <==> !IsDigit(s[0]);
    if a < 0 {
      assert s[1..] == Digits(-a) == Digits(-b);
      DigitsInjective(-a, -b);
    } else {
      DigitsInjective(a, b);
    }
  }

  lemma DecimalHasNoDot(n: int)
    ensures '.' !in Decimal(n)
  {
    DigitsAreDigits(if n < 0 then -n else n);
  }

  /** Two texts cut at their first dot. */
  lemma SplitAtDot(a: string, b: string, a': string, b': string)
    requires '.' !in a && '.' !in a' && a + "." + b == a' + "." + b'
    ensures a == a' && b == b'
  {
    var s := a + "." + b;
    assert s[|a|] == '.' && s[|a'|] == '.';
    assert forall i :: 0 <= i < |a| ==> s[i] == a[i];
    assert forall i :: 0 <= i < |a'| ==> s[i] == a'[i];
    assert s[..|a|] == a && s[..|a'|] == a';
    assert s[|a| + 1..] == b && s[|a'| + 1..] == b';
  }

  lemma IdentifierParts(role: Role)
    ensures |Identifier(role)| >= 6 && Identifier(role)[4] == Kind(role) && Identifier(role)[6..] == Tail(role)
    ensures PREFIX <= Identifier(role)
  {
    hide Tail;
    assert Identifier(role)[..4] == PREFIX;
  }

  lemma IdentifierInjective(a: Role, b: Role)
    requires Identifier(a) == Identifier(b)
    ensures a == b
  {
    IdentifierParts(a);
    IdentifierParts(b);
    hide Identifier;
    DecimalHasNoDot(a.routeId);
    DecimalHasNoDot(b.routeId);
    if a.Origin? || a.Destination? {
      DecimalInjective(a.routeId, b.routeId);
    } else {
      SplitAtDot(Decimal(a.routeId), Decimal(a.legId), Decimal(b.routeId), Decimal(b.legId));
      DecimalInjective(a.routeId, b.routeId);
      DecimalInjective(a.legId, b.legId);
    }
  }

  // ---- candidates --------------------------------------------------------------------------------

  predicate DistinctIds(routes: seq<Route>) {
    forall i, j :: 0 <= i < j < |routes| ==> routes[i].id != routes[j].id
  }

  lemma NoRepeatsConcat<T>(a: seq<T>, b: seq<T>)
    requires NoRepeats(a) && NoRepeats(b) && forall x :: x in a ==> x !in b
    ensures NoRepeats(a + b)
  {
    forall i, j | 0 <= i < j < |a + b| ensures (a + b)[i] != (a + b)[j] {
      if i < |a| {
        assert a[i] in a;
      }
    }
  }

  lemma RolesConcat(a: seq<Candidate>, b: seq<Candidate>)
    ensures CandidateRoles(a + b) == CandidateRoles(a) + CandidateRoles(b)
  {
  }

  lemma {:induction false} StopsDistinct(routeId: int, legs: seq<TransitLeg>, radius: RadiusPolicy)
    requires forall i, j :: 0 <= i < j < |legs| ==> legs[i].legId != legs[j].legId
    ensures var roles := CandidateRoles(Stops(routeId, legs, radius));
            && NoRepeats(roles)
            && forall r :: r in roles ==>
                 (r.BoardStop? || r.AlightStop?) && r.routeId == routeId && exists i :: 0 <= i < |legs| && legs[i].legId == r.legId
  {
    if legs != [] {
      var n := |legs| - 1;
      var front, leg := legs[..n], legs[n];
      StopsDistinct(routeId, front, radius);
      var before := CandidateRoles(Stops(routeId, front, radius));
      var added := [BoardStop(routeId, leg.legId), AlightStop(routeId, leg.legId)];
      forall r | r in before ensures r !in added && exists i :: 0 <= i < |legs| && legs[i].legId == r.legId {
        var i :| 0 <= i < |front| && front[i].legId == r.legId;
        assert legs[i].legId == r.legId;
      }
      assert legs[n].legId == leg.legId;
      NoRepeatsConcat(before, added);
      assert CandidateRoles(Stops(routeId, legs, radius)) == before + added;
    }
  }

  function PlacesOf(route: Route, radius: RadiusPolicy): seq<Candidate> {
    [Candidate(Destination(route.id), route.destination, radius.place)] + Stops(route.id, route.transitLegs, radius)
  }

  lemma PlacesDistinct(route: Route, radius: RadiusPolicy)
    requires route.Distinct()
    ensures var roles := CandidateRoles(PlacesOf(route, radius));
            NoRepeats(roles) && forall r :: r in roles ==> !r.Origin? && r.routeId == route.id
  {
    var stops := CandidateRoles(Stops(route.id, route.transitLegs, radius));
    StopsDistinct(route.id, route.transitLegs, radius);
    hide Stops;
    NoRepeatsConcat([Destination(route.id)], stops);
    assert CandidateRoles(PlacesOf(route, radius)) == [Destination(route.id)] + stops;
  }

  lemma {:induction false} RestDistinct(routes: seq<Route>, radius: RadiusPolicy)
    requires DistinctIds(routes) && forall route :: route in routes ==> route.Distinct()
    ensures var roles := CandidateRoles(Rest(routes, radius));
            NoRepeats(roles)
            && forall r :: r in roles ==> !r.Origin? && exists i :: 0 <= i < |routes| && routes[i].id == r.routeId
  {
    if routes != [] {
      var n := |routes| - 1;
      var front, route := routes[..n], routes[n];
      assert Rest(routes, radius) == Rest(front, radius) + PlacesOf(route, radius);
      RestDistinct(front, radius);
      hide Rest, PlacesOf, NoRepeats, Route.Distinct;
      assert route in routes;
      PlacesDistinct(route, radius);
      var before, places := CandidateRoles(Rest(front, radius)), CandidateRoles(PlacesOf(route, radius));
      forall r | r in before ensures r.routeId != route.id && exists i :: 0 <= i < |routes| && routes[i].id == r.routeId {
        var i :| 0 <= i < |front| && front[i].id == r.routeId;
        assert routes[i].id == r.routeId;
      }
      hide DistinctIds;
      NoRepeatsConcat(before, places);
      RolesConcat(Rest(front, radius), PlacesOf(route, radius));
      assert routes[n].id == route.id;
    }
  }

  lemma OrderedDistinct(ordered: seq<Route>, radius: RadiusPolicy)
    requires DistinctIds(ordered) && forall route :: route in ordered ==> route.Distinct()
    ensures NoRepeats(CandidateRoles(Origins(ordered, radius) + Rest(ordered, radius)))
  {
    RestDistinct(ordered, radius);
    RolesConcat(Origins(ordered, radius), Rest(ordered, radius));
    NoRepeatsConcat(CandidateRoles(Origins(ordered, radius)), CandidateRoles(Rest(ordered, radius)));
  }

  // ---- order changes nothing about distinctness --------------------------------------------------

  lemma SeenTwice<T>(s: seq<T>, i: nat, j: nat)
    requires i < j < |s| && s[i] == s[j]
    ensures multiset(s)[s[i]] >= 2
  {
    assert s == s[..j] + s[j..];
    assert s[i] in s[..j] && s[j] in s[j..];
  }

  lemma NoRepeatsCount<T>(s: seq<T>, x: T)
    requires NoRepeats(s)
    ensures multiset(s)[x] <= 1
  {
    if i :| 0 <= i < |s| && s[i] == x {
      assert s == s[..i] + [x] + s[i + 1..];
      assert x !in s[..i] && x !in s[i + 1..];
    } else {
      assert x !in s;
    }
  }

  lemma PermutedStayDistinct(a: seq<Route>, b: seq<Route>)
    requires multiset(a) == multiset(b) && DistinctIds(a) && forall route :: route in a ==> route.Distinct()
    ensures DistinctIds(b) && forall route :: route in b ==> route.Distinct()
  {
    forall route | route in b ensures route in a {
      assert route in multiset(b);
    }
    forall i, j | 0 <= i < j < |b| ensures b[i].id != b[j].id {
      assert b[i] in a && b[j] in a;
      if b[i].id == b[j].id {
        SeenTwice(b, i, j);
        NoRepeatsCount(a, b[i]);
      }
    }
  }

  lemma ActiveFirstPermutes(routes: seq<Route>, active: Option<int>)
    ensures multiset(ActiveFirst(routes, active)) == multiset(routes)
  {
    if active.Some? {
      var i := RouteIndex(routes, active.value);
      if i < |routes| {
        assert routes == routes[..i] + [routes[i]] + routes[i + 1..];
      }
    }
  }

  lemma CandidatesDistinct(routes: seq<Route>, usual: Direction, active: Option<int>, radius: RadiusPolicy)
    requires DistinctIds(routes) && forall route :: route in routes ==> route.Distinct()
    ensures NoRepeats(CandidateRoles(Candidates(routes, usual, active, radius)))
  {
    var ordered := ActiveFirst(Prioritized(routes, usual), active);
    ActiveFirstPermutes(Prioritized(routes, usual), active);
    PermutedStayDistinct(routes, ordered);
    OrderedDistinct(ordered, radius);
  }

  // ---- names of regions --------------------------------------------------------------------------

  lemma {:induction false} RegionsAreNamed(cs: seq<Candidate>, dist: Distance, merge: real, max: int)
    ensures forall region :: region in PlaceAll(cs, dist, merge, max).regions ==>
              region.roles != [] && region.identifier == Identifier(region.roles[0])
  {
    hide Identifier;
    if cs != [] {
      RegionsAreNamed(cs[..|cs| - 1], dist, merge, max);
    }
  }

  lemma {:induction false} SharedRoleCounts(regions: seq<PlannedRegion>, i: nat, j: nat, role: Role)
    requires i < j < |regions| && role in regions[i].roles && role in regions[j].roles
    ensures RolesOf(regions)[role] >= 2
    decreases |regions|
  {
    var n := |regions| - 1;
    if j < n {
      SharedRoleCounts(regions[..n], i, j, role);
    } else {
      RoleIn(regions[..n], i, role);
    }
  }

  /** For every set of routes: each stop and place is in exactly one region or dropped, and regions differ in name, so a
      name leads back to the roles of its region. */
  lemma PlanIsSound(routes: seq<Route>, usual: Direction, active: Option<int>, radius: RadiusPolicy, dist: Distance,
                    merge: real, limit: int)
    requires DistinctIds(routes) && forall route :: route in routes ==> route.Distinct()
    ensures var plan := PlanOf(routes, usual, active, radius, dist, merge, limit);
            && RolesOf(plan.regions) + multiset(plan.dropped)
               == multiset(CandidateRoles(Candidates(routes, usual, active, radius)))
            && (forall i, j :: 0 <= i < j < |plan.regions| ==> plan.regions[i].identifier != plan.regions[j].identifier)
            && (forall i :: 0 <= i < |plan.regions| ==>
                  plan.RolesFor(plan.regions[i].identifier) == plan.regions[i].roles)
            && (forall i :: 0 <= i < |plan.regions| ==> PREFIX <= plan.regions[i].identifier)
  {
    var cs := Candidates(routes, usual, active, radius);
    var plan := PlanOf(routes, usual, active, radius, dist, merge, limit);
    CandidatesDistinct(routes, usual, active, radius);
    EveryRoleOnce(cs, dist, merge, Limit(limit));
    RegionsAreNamed(cs, dist, merge, Limit(limit));
    NamesDiffer(plan, cs);
    forall i | 0 <= i < |plan.regions|
      ensures plan.RolesFor(plan.regions[i].identifier) == plan.regions[i].roles && PREFIX <= plan.regions[i].identifier
    {
      FindsItsRoles(plan.regions, i);
      assert plan.regions[i] in plan.regions;
      IdentifierParts(plan.regions[i].roles[0]);
    }
  }

  lemma NamesDiffer(plan: GeofencePlan, cs: seq<Candidate>)
    requires NoRepeats(CandidateRoles(cs))
    requires RolesOf(plan.regions) + multiset(plan.dropped) == multiset(CandidateRoles(cs))
    requires forall region :: region in plan.regions ==>
               region.roles != [] && region.identifier == Identifier(region.roles[0])
    ensures forall i, j :: 0 <= i < j < |plan.regions| ==> plan.regions[i].identifier != plan.regions[j].identifier
  {
    hide Identifier;
    forall i, j | 0 <= i < j < |plan.regions| ensures plan.regions[i].identifier != plan.regions[j].identifier {
      assert plan.regions[i] in plan.regions && plan.regions[j] in plan.regions;
      var role := plan.regions[i].roles[0];
      if plan.regions[i].identifier == plan.regions[j].identifier {
        IdentifierInjective(role, plan.regions[j].roles[0]);
        SharedRoleCounts(plan.regions, i, j, role);
        NoRepeatsCount(CandidateRoles(cs), role);
      }
    }
  }

  lemma {:induction false} FindsItsRoles(regions: seq<PlannedRegion>, i: nat)
    requires i < |regions|
    requires forall x, y :: 0 <= x < y < |regions| ==> regions[x].identifier != regions[y].identifier
    ensures FindRoles(regions, regions[i].identifier) == regions[i].roles
    decreases |regions|
  {
    if i > 0 {
      FindsItsRoles(regions[1..], i - 1);
    }
  }
}
