/** What each event does to a recording, said of `Handle` in the terms of its callers: the clock, the regions, the
    buttons and the samples. */
module RecorderLaws {
  import opened Basics
  import opened Commands
  import opened Routes
  import opened RecorderModel
  import opened RecorderStops
  import GeofenceNames
  import GeofencePlaces

  // ---- the clock ---------------------------------------------------------------------------------

  /** The rider has been back at the origin for long enough. */
  predicate BackTooLong(policy: Policy, trip: ActiveTrip, now: Time) {
    trip.returnedToOriginAt.Some? && trip.returnedToOriginAt.value + policy.abandonAfterReturnHome <= now
  }

  /** The departure is too long ago. */
  predicate OutTooLong(policy: Policy, trip: ActiveTrip, now: Time) {
    trip.leftHomeAt + policy.maxTripDuration <= now
  }

  /** The trip is over: nothing is recorded any more, and the time is kept for its route. */
  predicate IsOver(s: RecorderState, trip: ActiveTrip, at: Time, o: Out) {
    && o.state == RecorderState(None, s.lastTripEndedAt[trip.route.id := at])
    && StopLocationUpdates in o.effects && TripEnded(trip.key) in o.effects
  }

  /** The buffer is handed over when its first point is old enough. */
  predicate BufferDue(policy: Policy, buffer: seq<GpsPoint>, now: Time) {
    buffer != [] && buffer[0].recordedAt + policy.gpsBatchInterval <= now
  }

  predicate UploadsBuffer(trip: ActiveTrip, e: Effect) {
    trip.gpsBuffer != [] && e == Enqueue(UploadGps(Some(trip.key), trip.gpsBuffer))
  }

  /** A tick ends the trip exactly when the rider has been back at the origin for `abandonAfterReturnHome` or is out for
      `maxTripDuration`. It says which; in the second case every leg is closed and who waited is taken to have boarded.
      No arrival is recorded. Any other tick changes nothing but the buffer, which it hands over when that is due. */
  lemma TickMeans(cfg: Config, s: RecorderState, now: Time)
    requires s.Shaped() && s.trip.Some?
    ensures var (o, trip) := (Handle(cfg, s, Tick(now)), s.trip.value);
            var (back, out) := (BackTooLong(cfg.policy, trip, now), OutTooLong(cfg.policy, trip, now));
            && (o.state.trip.None? <==> back || out)
            && (back || out ==> IsOver(s, trip, now, o))
            && (back || out ==> forall e :: Tells(e) ==>
                  (e in o.effects <==>
                   || UploadsBuffer(trip, e)
                   || (back && e == NeedsReview(Note(trip.key, None, TripAbandoned, now)))
                   || (!back && e == NeedsReview(Note(trip.key, None, TripTimedOut, now)))
                   || (!back && exists i: nat :: i < |trip.legs| && ClosingSays(trip, Reach({}, {}), i, now, e))))
            && (!back && !out ==>
                  if BufferDue(cfg.policy, trip.gpsBuffer, now)
                  then o == Out(s.(trip := Some(trip.(gpsBuffer := []))), [Enqueue(UploadGps(Some(trip.key), trip.gpsBuffer))])
                  else o == Out(s, []))
  {
    var trip := s.trip.value;
    var o := Handle(cfg, s, Tick(now));
    if BackTooLong(cfg.policy, trip, now) {
      forall e | Tells(e)
        ensures e in o.effects <==> UploadsBuffer(trip, e) || e == NeedsReview(Note(trip.key, None, TripAbandoned, now))
      {
        EndingTells(s, now, e);
      }
    } else if OutTooLong(cfg.policy, trip, now) {
      var (closed, closing) := CloseLegs(trip, |trip.legs|, now);
      forall e | Tells(e)
        ensures e in o.effects <==>
                || UploadsBuffer(trip, e) || e == NeedsReview(Note(trip.key, None, TripTimedOut, now))
                || exists i: nat :: i < |trip.legs| && ClosingSays(trip, Reach({}, {}), i, now, e)
      {
        EndingTells(s.(trip := Some(closed)), now, e);
        AllClosed(trip, now, e);
      }
    }
  }

  lemma {:induction false} DismissingTells(legs: seq<LegProgress>, e: Effect)
    requires e in DismissWaiting(legs)
    ensures e.DismissPrompt?
  {
    if legs != [] && e in DismissWaiting(legs[..|legs| - 1]) {
      DismissingTells(legs[..|legs| - 1], e);
    }
  }

  lemma EndingTells(s: RecorderState, at: Time, e: Effect)
    requires s.trip.Some?
    ensures var o := EndTrip(s, at);
            && IsOver(s, s.trip.value, at, o)
            && (Tells(e) ==> (e in o.effects <==> UploadsBuffer(s.trip.value, e)))
  {
    var trip := s.trip.value;
    if e in DismissWaiting(trip.legs) {
      DismissingTells(trip.legs, e);
    }
    hide DismissWaiting;
    var tail := [StopLocationUpdates, TripEnded(trip.key)];
    assert tail[0] in tail && tail[1] in tail;
  }

  lemma AllClosed(trip: ActiveTrip, at: Time, e: Effect)
    requires Tells(e)
    ensures e in CloseLegs(trip, |trip.legs|, at).1 <==>
            exists i: nat :: i < |trip.legs| && ClosingSays(trip, Reach({}, {}), i, at, e)
  {
    ClosingIs(trip, |trip.legs|, at, e);
    hide CloseLegs;
    forall i: nat | i < |trip.legs|
      ensures e in ClosingEffects(trip.key, trip.legs[i], at) <==> ClosingSays(trip, Reach({}, {}), i, at, e)
    {
    }
  }

  // ---- leaving a place ---------------------------------------------------------------------------

  /** The time of day in Seoul, nine hours ahead, is within the hours of going to work. */
  predicate IsWorkTime(hours: Hours, at: Time, day: int) {
    && day * 86_400_000 <= at + 32_400_000 < (day + 1) * 86_400_000
    && hours.from * 3_600_000 <= at + 32_400_000 - day * 86_400_000 < hours.until * 3_600_000
  }

  /** Going to work is usual within those hours, going home outside of them. */
  ghost predicate IsUsual(hours: Hours, at: Time, direction: Direction) {
    direction.ToWork? <==> exists day :: IsWorkTime(hours, at, day)
  }

  predicate IsDay(day: int, at: Time) {
    day * 86_400_000 <= at + 32_400_000 < (day + 1) * 86_400_000
  }

  lemma UsualIs(hours: Hours, at: Time)
    ensures IsUsual(hours, at, UsualDirection(hours, at))
    ensures forall d, d' :: IsUsual(hours, at, d) && IsUsual(hours, at, d') ==> d == d'
    ensures IsDay(KstDate(at), at) && forall day :: IsDay(day, at) ==> day == KstDate(at)
  {
    var day := KstDate(at);
    var ms := at + 32_400_000 - day * 86_400_000;
    assert (at + 32_400_000) / 3_600_000 == day * 24 + ms / 3_600_000;
    assert KstHour(at) == ms / 3_600_000;
    assert hours.from <= KstHour(at) < hours.until <==> IsWorkTime(hours, at, day);
    assert forall d :: IsDay(d, at) ==> d == day;
  }

  /** A trip that has just begun. */
  ghost predicate IsFresh(trip: ActiveTrip, route: Route, at: Time) {
    && trip.key == TripKey(route.id, at) && trip.route == route && trip.leftHomeAt == at
    && trip.returnedToOriginAt.None? && trip.latestRecordedAt == at && trip.gpsBuffer == []
    && |trip.legs| == |route.transitLegs|
    && forall i :: 0 <= i < |trip.legs| ==> trip.legs[i] == LegProgress(route.transitLegs[i].legId, NotStarted, 1, None, None)
  }

  /** The route whose origin was left; of several, one of the usual direction and then the smallest id. */
  ghost predicate StartsByLeaving(cfg: Config, id: string, at: Time, route: Route) {
    && route in cfg.routes && Origin(route.id) in cfg.plan.RolesFor(id)
    && forall other, usual :: && other in cfg.routes && Origin(other.id) in cfg.plan.RolesFor(id) && other != route
                              && IsUsual(cfg.hours, at, usual)
                              ==> GeofencePlaces.GoesFirst(route, other, usual, None)
  }

  ghost predicate LeavingStarts(cfg: Config, at: Time, route: Route, o: Out, s: RecorderState, day: int) {
    && o.state == s.(trip := o.state.trip) && o.state.trip.Some? && IsFresh(o.state.trip.value, route, at)
    && o.effects == [Enqueue(CreateTrip(TripKey(route.id, at), day)), StartLocationUpdates]
                    + if IsUsual(cfg.hours, at, route.direction) then []
                      else [ConfirmTripStart(TripKey(route.id, at), route.direction),
                            NeedsReview(Note(TripKey(route.id, at), None, UnusualDirection, at))]
  }

  lemma {:induction false} StartingAtIs(routes: seq<Route>, roles: seq<Role>, route: Route)
    ensures route in StartingAt(routes, roles) <==> route in routes && Origin(route.id) in roles
  {
    if routes != [] {
      StartingAtIs(routes[1..], roles, route);
      assert routes == [routes[0]] + routes[1..];
    }
  }

  lemma BeforeIs(a: Route, b: Route, usual: Direction)
    requires a.id != b.id
    ensures !Before(b, a, usual) <==> GeofencePlaces.GoesFirst(a, b, usual, None)
    ensures GeofencePlaces.GoesFirst(a, b, usual, None) ==> !GeofencePlaces.GoesFirst(b, a, usual, None)
  {
  }

  /** The first route among candidates is the one that goes first. */
  lemma FirstRouteIs(routes: seq<Route>, candidates: seq<Route>, usual: Direction, route: Route)
    requires GeofenceNames.DistinctIds(routes) && forall r :: r in candidates ==> r in routes
    requires route in candidates
    ensures FirstRoute(candidates, usual) == Some(route) <==>
            forall other :: other in candidates && other != route ==> GeofencePlaces.GoesFirst(route, other, usual, None)
  {
    var first := FirstRoute(candidates, usual).value;
    hide FirstRoute, Before;
    forall a, b | a in candidates && b in candidates && a != b ensures a.id != b.id {
      if a.id == b.id {
        GeofencePlaces.SameRoute(routes, a, b);
      }
    }
    forall other | other in candidates && other != first ensures GeofencePlaces.GoesFirst(first, other, usual, None) {
      BeforeIs(first, other, usual);
    }
    if route != first {
      BeforeIs(first, route, usual);
    }
  }

  predicate LeavesAgain(cfg: Config, trip: ActiveTrip, id: string, at: Time) {
    && Origin(trip.route.id) in cfg.plan.RolesFor(id) && trip.returnedToOriginAt.Some? && trip.leftHomeAt < at
    && forall p :: p in trip.legs ==> p.phase == NotStarted
  }

  /** Without a trip, leaving an origin starts one for the route that goes first there, and asks for confirmation when
      its direction is unusual at that hour. */
  lemma LeavingStartsExactlyWhen(cfg: Config, s: RecorderState, id: string, at: Time, day: int)
    requires s.Shaped() && s.trip.None? && GeofenceNames.DistinctIds(cfg.routes) && IsDay(day, at)
    ensures var o := Handle(cfg, s, RegionExited(id, at));
            if exists route :: route in cfg.routes && Origin(route.id) in cfg.plan.RolesFor(id) then
              && o.state.trip.Some? && StartsByLeaving(cfg, id, at, o.state.trip.value.route)
              && LeavingStarts(cfg, at, o.state.trip.value.route, o, s, day)
            else o == Out(s, [])
  {
    var roles, usual := cfg.plan.RolesFor(id), UsualDirection(cfg.hours, at);
    var candidates := StartingAt(cfg.routes, roles);
    UsualIs(cfg.hours, at);
    forall route ensures route in candidates <==> route in cfg.routes && Origin(route.id) in roles {
      StartingAtIs(cfg.routes, roles, route);
    }
    hide StartingAt, FirstRoute, UsualDirection, IsUsual, KstDate, IsDay, GeofencePlaces.GoesFirst;
    if candidates != [] {
      var route := FirstRoute(candidates, usual).value;
      FirstRouteIs(cfg.routes, candidates, usual, route);
      var o := Handle(cfg, s, RegionExited(id, at));
      assert o.state.trip == Some(NewTrip(route, at));
      assert StartsByLeaving(cfg, id, at, route);
    } else {
      forall route ensures !(route in cfg.routes && Origin(route.id) in roles) {
        assert route !in candidates;
      }
    }
  }

  /** With a trip, leaving its origin moves the departure exactly when the rider had come back, no leg has begun and the
      time is later; leaving any other place changes nothing. */
  lemma DepartureMovesExactlyWhen(cfg: Config, s: RecorderState, id: string, at: Time)
    requires s.Shaped() && s.trip.Some?
    ensures var (o, trip) := (Handle(cfg, s, RegionExited(id, at)), s.trip.value);
            if LeavesAgain(cfg, trip, id, at) then
              o == Out(s.(trip := Some(trip.(leftHomeAt := at, latestRecordedAt := at, returnedToOriginAt := None))),
                       [Enqueue(UpdateTrip(trip.key, TripPatch(Some(at), None)))])
            else o == Out(s, [])
  {
  }

  // ---- reaching a place --------------------------------------------------------------------------

  /** The trip with the return to its origin on it, if this is one: before any leg, and the first since the departure. */
  function BackAt(trip: ActiveTrip, roles: seq<Role>, at: Time): ActiveTrip {
    if Origin(trip.route.id) in roles && trip.returnedToOriginAt.None? && forall p :: p in trip.legs ==> p.phase == NotStarted
    then trip.(returnedToOriginAt := Some(at)) else trip
  }

  /** What is told of a trip at its destination: the arrival, unless something later was recorded; and the buffer. */
  predicate DestinationTells(trip: ActiveTrip, at: Time, e: Effect) {
    || UploadsBuffer(trip, e)
    || e == if trip.latestRecordedAt <= at then Enqueue(UpdateTrip(trip.key, TripPatch(None, Some(at))))
            else NeedsReview(Note(trip.key, None, TimeOutOfOrder, at))
  }

  /** The effect of reaching a region on the trip: its stops count, and its destination ends the trip. */
  ghost predicate Reaches(cfg: Config, s: RecorderState, trip: ActiveTrip, roles: seq<Role>, at: Time, state': RecorderState,
                          effects: seq<Effect>) {
    var reach, there := RegionReach(trip.route, roles), Destination(trip.route.id) in roles;
    && (if there then state' == RecorderState(None, s.lastTripEndedAt[trip.route.id := at])
                      && StopLocationUpdates in effects && TripEnded(trip.key) in effects
        else state' == s.(trip := state'.trip) && state'.trip.Some?
             && TripAfter(BackAt(trip, roles, at), reach, at, state'.trip.value))
    && forall e :: Tells(e) ==>
         (e in effects <==>
          || Told(BackAt(trip, roles, at), reach, there && trip.latestRecordedAt <= at, at, e)
          || (there && DestinationTells(trip, at, e)))
  }

  lemma AllTell(trip: ActiveTrip, reach: Reach, i: nat, at: Time, e: Effect)
    requires i < |trip.legs|
    ensures Says(trip, reach, true, i, at, e) <==>
            || Says(trip, reach, false, i, at, e)
            || (!AlightCounts(trip, reach, i) && !Passed(trip, reach, i) && ClosingSays(trip, reach, i, at, e))
  {
    hide BoardCounts, AlightCounts, Passed, BoardSays, AlightSays, ClosingSays;
  }

  lemma ClosingTells(trip: ActiveTrip, reach: Reach, at: Time, trip': ActiveTrip, before: seq<Effect>, e: Effect)
    requires trip.leftHomeAt <= at && TripAfter(trip, reach, at, trip') && Tells(e)
    requires TellsExactly(trip, reach, false, at, before)
    ensures e in before || e in CloseLegs(trip', |trip'.legs|, at).1 <==> Told(trip, reach, true, at, e)
  {
    ClosingIs(trip', |trip'.legs|, at, e);
    forall i: nat | i < |trip.legs|
      ensures Says(trip, reach, true, i, at, e) <==>
              Says(trip, reach, false, i, at, e) || e in ClosingEffects(trip'.key, trip'.legs[i], at)
    {
      AllTell(trip, reach, i, at, e);
      ClosedLeg(trip, reach, trip'.legs[i], i, at, e);
    }
    hide Says, ClosingEffects, CloseLegs, LegAfter, AnyCounts, TimeTaken;
    assert e in before <==> Told(trip, reach, false, at, e);
    if i: nat :| i < |trip.legs| && e in ClosingEffects(trip'.key, trip'.legs[i], at) {
      assert Says(trip, reach, true, i, at, e);
    }
    if i: nat :| i < |trip.legs| && Says(trip, reach, false, i, at, e) {
      assert Says(trip, reach, true, i, at, e);
    }
    if i: nat :| i < |trip.legs| && Says(trip, reach, true, i, at, e) {
      assert Says(trip, reach, false, i, at, e) || e in ClosingEffects(trip'.key, trip'.legs[i], at);
    }
  }

  lemma ArrivingTells(s: RecorderState, trip: ActiveTrip, reach: Reach, at: Time, before: seq<Effect>, e: Effect)
    requires s.trip.Some? && TripAfter(trip, reach, at, s.trip.value) && TellsExactly(trip, reach, false, at, before)
    requires trip.leftHomeAt <= trip.latestRecordedAt
    ensures IsOver(s, trip, at, Arrive(s, at))
    ensures Tells(e) ==> (e in before + Arrive(s, at).effects <==>
                          Told(trip, reach, trip.latestRecordedAt <= at, at, e) || DestinationTells(trip, at, e))
  {
    var trip' := s.trip.value;
    var (closed, closing) := CloseLegs(trip', |trip'.legs|, at);
    hide CloseLegs, EndTrip, TellsExactly, TimeTaken, AnyCounts, Told;
    assert trip'.latestRecordedAt <= at <==> trip.latestRecordedAt <= at;
    if trip.latestRecordedAt <= at {
      EndingTells(s.(trip := Some(closed)), at, e);
      if Tells(e) {
        ClosingTells(trip, reach, at, trip', before, e);
      }
    } else {
      EndingTells(s, at, e);
      hide TripAfter;
      BeforeTells(trip, reach, at, before, e);
    }
  }

  lemma BeforeTells(trip: ActiveTrip, reach: Reach, at: Time, before: seq<Effect>, e: Effect)
    requires TellsExactly(trip, reach, false, at, before)
    ensures Tells(e) ==> (e in before <==> Told(trip, reach, false, at, e))
  {
    hide Told;
  }

  /** With a trip, reaching a region does to it what `Reaches` says. */
  lemma ReachingMeans(cfg: Config, s: RecorderState, id: string, at: Time)
    requires s.Shaped() && s.trip.Some? && s.trip.value.route.Distinct()
    requires s.trip.value.leftHomeAt <= s.trip.value.latestRecordedAt
    ensures var o := Handle(cfg, s, RegionEntered(id, at));
            Reaches(cfg, s, s.trip.value, cfg.plan.RolesFor(id), at, o.state, o.effects)
  {
    ReachingTells(cfg, s, cfg.plan.RolesFor(id), at);
    assert [] + Entered(s, cfg.plan.RolesFor(id), at).effects == Entered(s, cfg.plan.RolesFor(id), at).effects;
  }

  /** The rest of `EnterRegions` once there is a trip. */
  function Entered(s: RecorderState, roles: seq<Role>, at: Time): Out
    requires s.Shaped() && s.trip.Some?
  {
    var s1 := EnterOrigin(s, roles, at);
    var route := s1.trip.value.route;
    var stops := SortStops(StopsOf(route, roles));
    SortedStopsAreStops(StopsOf(route, roles), |route.transitLegs|);
    var passed := EnterStops(s1, stops, at);
    if Destination(route.id) in roles then
      Out(Arrive(passed.state, at).state, passed.effects + Arrive(passed.state, at).effects)
    else passed
  }

  lemma ReachingTells(cfg: Config, s: RecorderState, roles: seq<Role>, at: Time)
    requires s.Shaped() && s.trip.Some? && s.trip.value.route.Distinct()
    requires s.trip.value.leftHomeAt <= s.trip.value.latestRecordedAt
    ensures Reaches(cfg, s, s.trip.value, roles, at, Entered(s, roles, at).state, Entered(s, roles, at).effects)
  {
    hide SortStops, StopsOf, RegionReach, EnterStops, Arrive, EnterOrigin, BackAt, TripAfter, TellsExactly, InStopOrder,
      ReachOf, Route.Distinct, Reaches;
    var trip := s.trip.value;
    var came, route := BackAt(trip, roles, at), trip.route;
    var stops := SortStops(StopsOf(route, roles));
    SortedReach(route, roles);
    SortedStopsAreStops(StopsOf(route, roles), |route.transitLegs|);
    BackIs(s, roles, at);
    BackKeeps(trip, roles, at);
    var s1 := EnterOrigin(s, roles, at);
    StopsEntered(s1, stops, at);
    ReachingComposes(cfg, s, roles, at, EnterStops(s1, stops, at), Entered(s, roles, at));
  }

  lemma BackKeeps(trip: ActiveTrip, roles: seq<Role>, at: Time)
    ensures BackAt(trip, roles, at) == trip.(returnedToOriginAt := BackAt(trip, roles, at).returnedToOriginAt)
  {
  }

  lemma ReachingComposes(cfg: Config, s: RecorderState, roles: seq<Role>, at: Time, passed: Out, o: Out)
    requires s.trip.Some? && s.trip.value.leftHomeAt <= s.trip.value.latestRecordedAt
    requires passed.state.trip.Some? && passed.state == s.(trip := passed.state.trip)
    requires var (trip, came) := (s.trip.value, BackAt(s.trip.value, roles, at));
             && TripAfter(came, RegionReach(trip.route, roles), at, passed.state.trip.value)
             && TellsExactly(came, RegionReach(trip.route, roles), false, at, passed.effects)
    requires o == if Destination(s.trip.value.route.id) in roles
                  then Out(Arrive(passed.state, at).state, passed.effects + Arrive(passed.state, at).effects) else passed
    ensures Reaches(cfg, s, s.trip.value, roles, at, o.state, o.effects)
  {
    var trip := s.trip.value;
    var (came, reach) := (BackAt(trip, roles, at), RegionReach(trip.route, roles));
    var there := Destination(trip.route.id) in roles;
    BackKeeps(trip, roles, at);
    hide BackAt, RegionReach, Arrive, TripAfter, TellsExactly, Told;
    forall e | Tells(e)
      ensures e in o.effects <==>
              Told(came, reach, there && trip.latestRecordedAt <= at, at, e) || (there && DestinationTells(trip, at, e))
    {
      if there {
        ArrivingTells(passed.state, came, reach, at, passed.effects, e);
      } else {
        BeforeTells(came, reach, at, passed.effects, e);
      }
    }
    if there {
      ArrivingTells(passed.state, came, reach, at, passed.effects, StopLocationUpdates);
    }
  }

  lemma BackIs(s: RecorderState, roles: seq<Role>, at: Time)
    requires s.trip.Some?
    ensures EnterOrigin(s, roles, at) == s.(trip := Some(BackAt(s.trip.value, roles, at)))
  {
    var trip := s.trip.value;
    assert trip.AnyLegStarted() <==> !(forall p :: p in trip.legs ==> p.phase == NotStarted) by {
      if trip.AnyLegStarted() {
        var i :| 0 <= i < |trip.legs| && trip.legs[i].phase != NotStarted;
        assert trip.legs[i] in trip.legs;
      }
    }
  }

  /** A route whose first boarding stop was reached, of the usual direction, and not just after its last trip. */
  ghost predicate MayStartAtStop(cfg: Config, s: RecorderState, id: string, at: Time, route: Route) {
    && route in cfg.routes && IsUsual(cfg.hours, at, route.direction)
    && route.transitLegs != [] && BoardStop(route.id, route.transitLegs[0].legId) in cfg.plan.RolesFor(id)
    && (route.id in s.lastTripEndedAt ==> s.lastTripEndedAt[route.id] + cfg.policy.quietAfterTripEnd <= at)
  }

  /** Of several, the smallest id. */
  ghost predicate StartsAtStop(cfg: Config, s: RecorderState, id: string, at: Time, route: Route) {
    && MayStartAtStop(cfg, s, id, at, route)
    && forall other :: MayStartAtStop(cfg, s, id, at, other) && other != route ==> route.id < other.id
  }

  lemma {:induction false} StartableIs(cfg: Config, s: RecorderState, id: string, routes: seq<Route>, at: Time,
                                       route: Route)
    requires forall r :: r in routes ==> r in cfg.routes
    ensures route in StartableAtStop(cfg, s, routes, cfg.plan.RolesFor(id), at) <==>
            route in routes && MayStartAtStop(cfg, s, id, at, route)
  {
    if routes != [] {
      StartableIs(cfg, s, id, routes[1..], at, route);
      assert routes == [routes[0]] + routes[1..];
      UsualIs(cfg.hours, at);
      hide IsUsual, UsualDirection;
    }
  }

  /** Without a trip, reaching the first boarding stop of a route that may start there begins a trip at that time, notes
      that the departure is a guess, and goes on as `Reaches` says; reaching anything else does nothing. */
  lemma ReachingStartsExactlyWhen(cfg: Config, s: RecorderState, id: string, at: Time, day: int)
    returns (begun: ActiveTrip, rest: seq<Effect>)
    requires s.Shaped() && s.trip.None? && GeofenceNames.DistinctIds(cfg.routes) && IsDay(day, at)
    requires forall route :: route in cfg.routes ==> route.Distinct()
    ensures var o := Handle(cfg, s, RegionEntered(id, at));
            if exists route :: MayStartAtStop(cfg, s, id, at, route) then
              && StartsAtStop(cfg, s, id, at, begun.route) && IsFresh(begun, begun.route, at)
              && o.effects == [Enqueue(CreateTrip(begun.key, day)), StartLocationUpdates,
                               NeedsReview(Note(begun.key, None, LeftHomeApproximated, at))] + rest
              && Reaches(cfg, s, begun, cfg.plan.RolesFor(id), at, o.state, rest)
            else o == Out(s, [])
  {
    var roles, usual := cfg.plan.RolesFor(id), UsualDirection(cfg.hours, at);
    var candidates := StartableAtStop(cfg, s, cfg.routes, roles, at);
    UsualIs(cfg.hours, at);
    forall route ensures route in candidates <==> MayStartAtStop(cfg, s, id, at, route) {
      StartableIs(cfg, s, id, cfg.routes, at, route);
    }
    if candidates == [] {
      rest := [];
      begun := NewTrip(Route(0, ToWork, Coordinate(0.0, 0.0), Coordinate(0.0, 0.0), []), at);
      forall route ensures !MayStartAtStop(cfg, s, id, at, route) {
        assert route !in candidates;
      }
    } else {
      begun, rest := ReachingStarts(cfg, s, id, at, day, candidates, usual);
    }
  }

  lemma ReachingStarts(cfg: Config, s: RecorderState, id: string, at: Time, day: int, candidates: seq<Route>,
                       usual: Direction)
    returns (begun: ActiveTrip, rest: seq<Effect>)
    requires s.Shaped() && s.trip.None? && GeofenceNames.DistinctIds(cfg.routes) && IsDay(day, at)
    requires forall route :: route in cfg.routes ==> route.Distinct()
    requires usual == UsualDirection(cfg.hours, at)
    requires candidates == StartableAtStop(cfg, s, cfg.routes, cfg.plan.RolesFor(id), at) && candidates != []
    requires forall route :: route in candidates <==> MayStartAtStop(cfg, s, id, at, route)
    ensures var o := Handle(cfg, s, RegionEntered(id, at));
            && StartsAtStop(cfg, s, id, at, begun.route) && IsFresh(begun, begun.route, at)
            && o.effects == [Enqueue(CreateTrip(begun.key, day)), StartLocationUpdates,
                             NeedsReview(Note(begun.key, None, LeftHomeApproximated, at))] + rest
            && Reaches(cfg, s, begun, cfg.plan.RolesFor(id), at, o.state, rest)
  {
    var roles := cfg.plan.RolesFor(id);
    var route := FirstRoute(candidates, usual).value;
    FirstIsSmallest(cfg, s, id, at, candidates, usual, route);
    UsualIs(cfg.hours, at);
    begun := NewTrip(route, at);
    var started := s.(trip := Some(begun));
    rest := Entered(started, roles, at).effects;
    hide FirstRoute, StartableAtStop, MayStartAtStop, KstDate, IsDay, UsualDirection, GeofenceNames.DistinctIds;
    assert route in cfg.routes;
    ReachingTells(cfg, started, roles, at);
    BegunThenEntered(cfg, s, roles, at, route);
    hide Entered;
    assert Reaches(cfg, s, begun, roles, at, Entered(started, roles, at).state, rest);
  }

  lemma FirstIsSmallest(cfg: Config, s: RecorderState, id: string, at: Time, candidates: seq<Route>, usual: Direction,
                        route: Route)
    requires GeofenceNames.DistinctIds(cfg.routes) && usual == UsualDirection(cfg.hours, at)
    requires candidates != [] && FirstRoute(candidates, usual) == Some(route)
    requires forall r :: r in candidates <==> MayStartAtStop(cfg, s, id, at, r)
    ensures StartsAtStop(cfg, s, id, at, route) && route in cfg.routes
  {
    UsualIs(cfg.hours, at);
    hide FirstRoute, UsualDirection, IsUsual;
    forall other | MayStartAtStop(cfg, s, id, at, other) && other != route ensures route.id < other.id {
      assert other in candidates && !Before(other, route, usual);
      if other.id == route.id {
        GeofencePlaces.SameRoute(cfg.routes, other, route);
      }
    }
  }

  lemma BegunThenEntered(cfg: Config, s: RecorderState, roles: seq<Role>, at: Time, route: Route)
    requires s.Shaped() && s.trip.None?
    requires FirstRoute(StartableAtStop(cfg, s, cfg.routes, roles, at), UsualDirection(cfg.hours, at)) == Some(route)
    ensures var (key, o) := (TripKey(route.id, at), EnterRegions(cfg, s, roles, at));
            var next := Entered(s.(trip := Some(NewTrip(route, at))), roles, at);
            && o.state == next.state
            && o.effects == [Enqueue(CreateTrip(key, KstDate(at))), StartLocationUpdates,
                             NeedsReview(Note(key, None, LeftHomeApproximated, at))] + next.effects
  {
    hide FirstRoute, StartableAtStop, UsualDirection, KstDate, EnterOrigin, EnterStops, Arrive, SortStops, StopsOf;
  }

  // ---- the buttons -------------------------------------------------------------------------------

  /** The leg that a button is about: the first that waits; or, while nobody waits or rides, the first that has not
      begun. */
  predicate IsAsked(legs: seq<LegProgress>, i: nat) {
    && i < |legs|
    && if legs[i].phase == Waiting then forall j :: 0 <= j < i ==> legs[j].phase != Waiting
       else && legs[i].phase == NotStarted && (forall j :: 0 <= j < i ==> legs[j].phase != NotStarted)
            && forall j :: 0 <= j < |legs| ==> legs[j].phase != Waiting && legs[j].phase != Riding
  }

  predicate Means(p: LegProgress, legId: Option<int>, attemptSeq: Option<int>) {
    (legId.Some? ==> legId.value == p.legId) && (attemptSeq.Some? ==> attemptSeq.value == p.attemptSeq)
  }

  /** A vehicle cannot have left before the rider did, or before one that was missed. */
  predicate LeftTooEarly(trip: ActiveTrip, p: LegProgress, left: Time) {
    left < trip.leftHomeAt || (p.lastMissedDepartureAt.Some? && left < p.lastMissedDepartureAt.value)
  }

  /** The attempt and its time, unless that is too early, which is noted. */
  function AnswerEffects(trip: ActiveTrip, p: LegProgress, left: Time, result: BoardingResult, notes: Option<string>)
    : seq<Effect>
  {
    var early := LeftTooEarly(trip, p, left);
    (if early then [NeedsReview(Note(trip.key, Some(p.legId), TimeOutOfOrder, left))] else [])
    + [Enqueue(UpsertAttempt(trip.key, Upsert(p.legId, Some(p.attemptSeq), None, None, if early then None else Some(left),
                                              None, Some(result), notes)))]
  }

  function Answered(trip: ActiveTrip, i: nat, p': LegProgress, left: Time): ActiveTrip
    requires i < |trip.legs|
  {
    trip.(legs := trip.legs[i := p'], returnedToOriginAt := None,
          latestRecordedAt := if trip.latestRecordedAt < left && !LeftTooEarly(trip, trip.legs[i], left) then left
                              else trip.latestRecordedAt)
  }

  lemma {:induction false} DoneStayClosed(trip: ActiveTrip, n: nat, at: Time)
    requires n <= |trip.legs| && forall j :: 0 <= j < n ==> trip.legs[j].phase == Done
    ensures CloseLegs(trip, n, at) == (trip, [])
  {
    var (closed, closing) := CloseLegs(trip, n, at);
    assert closed.legs == trip.legs;
    assert closed == trip;
    if n > 0 {
      DoneStayClosed(trip, n - 1, at);
      assert ClosingEffects(trip.key, trip.legs[n - 1], at) == [];
      assert closing == [];
    }
  }

  lemma AskedIsAnswered(legs: seq<LegProgress>, i: nat)
    ensures IsAsked(legs, i) <==> AnsweredLeg(legs) == Some(i)
  {
    var waiting, riding, idle := FirstIn(legs, Waiting), FirstIn(legs, Riding), FirstIn(legs, NotStarted);
    hide FirstIn;
  }

  /** A button is answered on the leg asked about, if it means that leg and attempt. */
  lemma AskedAnswers(cfg: Config, s: RecorderState, i: nat, legId: Option<int>, attemptSeq: Option<int>, left: Time,
                     missed: Option<string>)
    requires s.Shaped() && s.trip.Some? && IsAsked(s.trip.value.legs, i)
    ensures UserAnswered(cfg, s, legId, attemptSeq, left, missed) ==
            if Means(s.trip.value.legs[i], legId, attemptSeq) then Answer(cfg.policy.maxAttemptSeq, s, i, left, missed)
            else Out(s, [])
  {
    AskedIsAnswered(s.trip.value.legs, i);
    hide AnsweredLeg, Answer;
  }

  lemma AskedClosesNothing(trip: ActiveTrip, i: nat, left: Time)
    requires IsAsked(trip.legs, i) && trip.legs[i].phase == NotStarted
    ensures CloseLegs(trip, i, left) == (trip, [])
  {
    DoneStayClosed(trip, i, left);
  }

  lemma AnswerIs(limit: int, s: RecorderState, i: nat, left: Time, missed: Option<string>)
    requires s.Shaped() && s.trip.Some? && IsAsked(s.trip.value.legs, i)
    ensures var (trip, o) := (s.trip.value, Answer(limit, s, i, left, missed));
            var p := trip.legs[i];
            var early := LeftTooEarly(trip, p, left);
            var p' := AnsweredProgress(p, if early then None else Some(left), missed.Some?, limit);
            && o.state == s.(trip := Some(Answered(trip, i, p', left)))
            && o.effects == AnswerEffects(trip, p, left, if missed.None? then Caught else Missed,
                                          if missed.Some? && missed.value != "" then missed else None)
                            + match p'.phase
                              case Riding => [DismissPrompt(p.legId)]
                              case Done => [DismissPrompt(p.legId),
                                            NeedsReview(Note(trip.key, Some(p.legId), AttemptLimitReached, left))]
                              case Waiting => [PromptBoarding(PromptFor(Answered(trip, i, p', left), i))]
                              case NotStarted => []
  {
    var trip := s.trip.value;
    if trip.legs[i].phase == NotStarted {
      AskedClosesNothing(trip, i, left);
    }
    hide CloseLegs, IsAsked, PromptFor, AnsweredProgress;
  }

  /** "Caught" on the leg asked about: the rider rides. */
  lemma CaughtMeans(cfg: Config, s: RecorderState, i: nat, legId: Option<int>, attemptSeq: Option<int>, at: Time,
                    departedAt: Option<Time>)
    requires s.Shaped() && s.trip.Some? && IsAsked(s.trip.value.legs, i)
    ensures var (o, trip) := (Handle(cfg, s, UserCaught(legId, attemptSeq, at, departedAt)), s.trip.value);
            var (p, left) := (trip.legs[i], if departedAt.Some? then departedAt.value else at);
            if !Means(p, legId, attemptSeq) then o == Out(s, [])
            else
              && o.state == s.(trip := Some(Answered(trip, i, p.(phase := Riding,
                                 departureAt := if LeftTooEarly(trip, p, left) then None else Some(left)), left)))
              && o.effects == AnswerEffects(trip, p, left, Caught, None) + [DismissPrompt(p.legId)]
  {
    var left := if departedAt.Some? then departedAt.value else at;
    AskedAnswers(cfg, s, i, legId, attemptSeq, left, None);
    AnswerIs(cfg.policy.maxAttemptSeq, s, i, left, None);
    hide UserAnswered, Answer, Answered, AnswerEffects, LeftTooEarly, IsAsked, Means, PromptFor;
  }

  /** "Missed" on the leg asked about: the next attempt, whose vehicle cannot leave before this one; or the end of the
      leg when the attempts are used up. */
  lemma MissedMeans(cfg: Config, s: RecorderState, i: nat, legId: Option<int>, attemptSeq: Option<int>, at: Time,
                    departedAt: Option<Time>, notes: Option<string>)
    requires s.Shaped() && s.trip.Some? && IsAsked(s.trip.value.legs, i)
    ensures var (o, trip) := (Handle(cfg, s, UserMissed(legId, attemptSeq, at, departedAt, notes)), s.trip.value);
            var (p, left) := (trip.legs[i], if departedAt.Some? then departedAt.value else at);
            var answer := AnswerEffects(trip, p, left, Missed, if notes == Some("") then None else notes);
            if !Means(p, legId, attemptSeq) then o == Out(s, [])
            else if p.attemptSeq >= cfg.policy.maxAttemptSeq then
              && o.state == s.(trip := Some(Answered(trip, i, p.(phase := Done), left)))
              && o.effects == answer + [DismissPrompt(p.legId),
                                        NeedsReview(Note(trip.key, Some(p.legId), AttemptLimitReached, left))]
            else
              && o.state == s.(trip := Some(Answered(trip, i, NextAttempt(trip, p, left), left)))
              && o.effects == answer + [PromptBoarding(Prompt(trip.key, p.legId, p.attemptSeq + 1,
                                                              trip.route.transitLegs[i].board.name,
                                                              trip.route.transitLegs[i].lineName))]
  {
    hide Answer, Answered, AnswerEffects, LeftTooEarly, IsAsked, AnsweredProgress, NextAttempt;
    var trip, left := s.trip.value, if departedAt.Some? then departedAt.value else at;
    var missed := Some(if notes.Some? then notes.value else "");
    AskedAnswers(cfg, s, i, legId, attemptSeq, left, missed);
    hide UserAnswered, Means;
    AskedIsOpen(trip.legs, i);
    AnswerIs(cfg.policy.maxAttemptSeq, s, i, left, missed);
    NextIs(trip, trip.legs[i], left, cfg.policy.maxAttemptSeq);
    AnsweredLegs(trip, i, NextAttempt(trip, trip.legs[i], left), left);
  }

  lemma AskedIsOpen(legs: seq<LegProgress>, i: nat)
    requires IsAsked(legs, i)
    ensures i < |legs| && (legs[i].phase == Waiting || legs[i].phase == NotStarted)
  {
  }

  lemma AnsweredLegs(trip: ActiveTrip, i: nat, p: LegProgress, left: Time)
    requires i < |trip.legs|
    ensures var t := Answered(trip, i, p, left);
            t.key == trip.key && t.route == trip.route && |t.legs| == |trip.legs| && t.legs[i] == p
  {
  }

  lemma NextIs(trip: ActiveTrip, p: LegProgress, left: Time, limit: int)
    ensures AnsweredProgress(p, if LeftTooEarly(trip, p, left) then None else Some(left), true, limit) ==
            if p.attemptSeq >= limit then p.(phase := Done) else NextAttempt(trip, p, left)
    ensures NextAttempt(trip, p, left).phase == Waiting && NextAttempt(trip, p, left).attemptSeq == p.attemptSeq + 1
  {
  }

  function NextAttempt(trip: ActiveTrip, p: LegProgress, left: Time): LegProgress {
    p.(phase := Waiting, attemptSeq := p.attemptSeq + 1,
       lastMissedDepartureAt := if LeftTooEarly(trip, p, left) then p.lastMissedDepartureAt else Some(left))
  }

  /** With no leg to ask about, or no trip, the buttons do nothing. */
  lemma NobodyAsked(cfg: Config, s: RecorderState, legId: Option<int>, attemptSeq: Option<int>, at: Time,
                    departedAt: Option<Time>, notes: Option<string>)
    requires s.Shaped() && (s.trip.Some? ==> forall i: nat :: !IsAsked(s.trip.value.legs, i))
    ensures Handle(cfg, s, UserCaught(legId, attemptSeq, at, departedAt)) == Out(s, [])
    ensures Handle(cfg, s, UserMissed(legId, attemptSeq, at, departedAt, notes)) == Out(s, [])
  {
    if s.trip.Some? {
      var answered := AnsweredLeg(s.trip.value.legs);
      if answered.Some? {
        AskedIsAnswered(s.trip.value.legs, answered.value);
      }
    }
  }

  // ---- samples and cancelling --------------------------------------------------------------------

  /** A sample of known and sufficient accuracy is buffered, as it is but for a speed below zero; with the batch full or
      the first point old enough, the buffer is handed over. Any other sample is dropped. */
  lemma SampleMeans(cfg: Config, s: RecorderState, x: Sample)
    requires s.Shaped() && s.trip.Some?
    ensures var (o, trip) := (Handle(cfg, s, Location(x)), s.trip.value);
            if x.accuracy.Some? && 0.0 <= x.accuracy.value <= cfg.policy.maxAccuracyM then
              exists speed ::
                var buffer := trip.gpsBuffer + [GpsPoint(x.recordedAt, x.lat, x.lng, speed, x.accuracy)];
                && (speed.Some? ==> speed == x.speed && 0.0 <= speed.value)
                && (speed.None? ==> x.speed.Some? ==> x.speed.value < 0.0)
                && if |buffer| >= cfg.policy.gpsBatchSize || BufferDue(cfg.policy, buffer, x.recordedAt)
                   then o == Out(s.(trip := Some(trip.(gpsBuffer := []))), [Enqueue(UploadGps(Some(trip.key), buffer))])
                   else o == Out(s.(trip := Some(trip.(gpsBuffer := buffer))), [])
            else o == Out(s, [])
  {
    var speed := PointOf(x).speed;
    assert PointOf(x) == GpsPoint(x.recordedAt, x.lat, x.lng, speed, x.accuracy);
  }

  /** Cancelling the trip, by its key or as the current one, forgets it without a command and without quiet time. */
  lemma CancellingMeans(cfg: Config, s: RecorderState, key: Option<TripKey>, at: Time)
    requires s.Shaped()
    ensures var o := Handle(cfg, s, UserCancelledTrip(key, at));
            if s.trip.Some? && (key.None? || key == Some(s.trip.value.key)) then
              && o.state == s.(trip := None) && DiscardOutbox(s.trip.value.key) in o.effects
              && StopLocationUpdates in o.effects && TripEnded(s.trip.value.key) in o.effects
              && forall e :: e in o.effects ==> !Tells(e)
            else o == Out(s, [])
  {
    if s.trip.Some? && (key.None? || key == Some(s.trip.value.key)) {
      var trip := s.trip.value;
      var tail := [DiscardOutbox(trip.key), StopLocationUpdates, TripEnded(trip.key)];
      assert tail[0] in tail && tail[1] in tail && tail[2] in tail;
      forall e | e in DismissWaiting(trip.legs) ensures !Tells(e) {
        DismissingTells(trip.legs, e);
      }
    }
  }
}
