/** The recorder of Recorder.swift as a value: the state after each event and the effects it asks for, in order.
    `RecorderMachine.Recorder` is the mutable recorder proved against these functions. */
module RecorderModel {
  import opened Basics
  import opened Commands
  import opened Routes
  import Sorting

  datatype Sample = Sample(recordedAt: Time, lat: real, lng: real, accuracy: Option<real>, speed: Option<real>)

  datatype Event =
    | RegionExited(identifier: string, at: Time)
    | RegionEntered(identifier: string, at: Time)
    | UserCaught(legId: Option<int>, attemptSeq: Option<int>, at: Time, departedAt: Option<Time>)
    | UserMissed(legId: Option<int>, attemptSeq: Option<int>, at: Time, departedAt: Option<Time>, notes: Option<string>)
    | UserCancelledTrip(key: Option<TripKey>, at: Time)
    | Location(sample: Sample)
    | Tick(at: Time)

  datatype Prompt = Prompt(key: TripKey, legId: int, attemptSeq: int, stopName: string, lineName: string)

  datatype NoteKind =
    | LeftHomeApproximated | BoardStopMissed | CaughtInferred | AlightMissed | LegSkipped | TimeOutOfOrder
    | AttemptLimitReached | TripAbandoned | TripTimedOut | UnusualDirection

  datatype Note = Note(key: TripKey, legId: Option<int>, kind: NoteKind, at: Time)

  datatype Effect =
    | Enqueue(command: Command)
    | StartLocationUpdates
    | StopLocationUpdates
    | PromptBoarding(prompt: Prompt)
    | DismissPrompt(legId: int)
    | ConfirmTripStart(key: TripKey, direction: Direction)
    | DiscardOutbox(key: TripKey)
    | NeedsReview(note: Note)
    | TripEnded(key: TripKey)

  datatype Policy = Policy(
    maxAccuracyM: real, gpsBatchSize: int, gpsBatchInterval: int, abandonAfterReturnHome: int,
    maxTripDuration: int, quietAfterTripEnd: int, maxAttemptSeq: int)

  const DefaultPolicy := Policy(100.0, 100, 30_000, 1_800_000, 14_400_000, 3_600_000, 20)

  datatype Phase = NotStarted | Waiting | Riding | Done

  datatype LegProgress = LegProgress(
    legId: int, phase: Phase, attemptSeq: int, departureAt: Option<Time>, lastMissedDepartureAt: Option<Time>)

  datatype ActiveTrip = ActiveTrip(
    key: TripKey,
    route: Route,
    leftHomeAt: Time,
    legs: seq<LegProgress>,
    returnedToOriginAt: Option<Time>,
    latestRecordedAt: Time,
    gpsBuffer: seq<GpsPoint>)
  {
    predicate AnyLegStarted() {
      exists i :: 0 <= i < |legs| && legs[i].phase != NotStarted
    }

    /** The progress list follows the legs of the route. */
    predicate Shaped() {
      && |legs| == |route.transitLegs|
      && forall i :: 0 <= i < |legs| ==> legs[i].legId == route.transitLegs[i].legId
    }
  }

  datatype RecorderState = RecorderState(trip: Option<ActiveTrip>, lastTripEndedAt: map<int, Time>) {
    predicate Shaped() {
      trip.Some? ==> trip.value.Shaped()
    }
  }

  const Resting := RecorderState(None, map[])

  datatype Config = Config(routes: seq<Route>, plan: GeofencePlan, policy: Policy, hours: Hours)

  /** The state after a transition and the effects the transition asked for. */
  datatype Out = Out(state: RecorderState, effects: seq<Effect>)

  function MaxTime(a: Time, b: Time): Time {
    if a < b then b else a
  }

  // ---- starting ----------------------------------------------------------------------------------

  function FreshLegs(legs: seq<TransitLeg>): (r: seq<LegProgress>)
    ensures |r| == |legs|
    ensures forall i :: 0 <= i < |r| ==> r[i] == LegProgress(legs[i].legId, NotStarted, 1, None, None)
  {
    seq(|legs|, i requires 0 <= i < |legs| => LegProgress(legs[i].legId, NotStarted, 1, None, None))
  }

  function NewTrip(route: Route, at: Time): ActiveTrip {
    ActiveTrip(TripKey(route.id, at), route, at, FreshLegs(route.transitLegs), None, at, [])
  }

  function StartTrip(s: RecorderState, route: Route, at: Time): Out {
    Out(s.(trip := Some(NewTrip(route, at))),
        [Enqueue(CreateTrip(TripKey(route.id, at), KstDate(at))), StartLocationUpdates])
  }

  function ExitRegions(cfg: Config, s: RecorderState, roles: seq<Role>, at: Time): (o: Out)
    ensures s.Shaped() ==> o.state.Shaped()
  {
    if s.trip.None? then
      var start := RouteToStart(cfg.hours, cfg.routes, roles, at);
      if start.None? then Out(s, [])
      else
        var route := start.value;
        var o := StartTrip(s, route, at);
        if route.direction == UsualDirection(cfg.hours, at) then o
        else
          var key := TripKey(route.id, at);
          o.(effects := o.effects + [ConfirmTripStart(key, route.direction),
                                     NeedsReview(Note(key, None, UnusualDirection, at))])
    else
      var trip := s.trip.value;
      if Origin(trip.route.id) in roles && trip.returnedToOriginAt.Some? && !trip.AnyLegStarted() && at > trip.leftHomeAt
      then Out(s.(trip := Some(trip.(returnedToOriginAt := None, leftHomeAt := at, latestRecordedAt := at))),
               [Enqueue(UpdateTrip(trip.key, TripPatch(Some(at), None)))])
      else Out(s, [])
  }

  predicate QuietOver(cfg: Config, s: RecorderState, routeId: int, at: Time) {
    routeId in s.lastTripEndedAt ==> at >= s.lastTripEndedAt[routeId] + cfg.policy.quietAfterTripEnd
  }

  /** Routes whose first boarding stop was entered, in the usual direction and not just after their last trip. */
  function StartableAtStop(cfg: Config, s: RecorderState, routes: seq<Route>, roles: seq<Role>, at: Time): (r: seq<Route>)
    ensures forall route :: route in r ==> route in routes
  {
    if routes == [] then []
    else
      var route := routes[0];
      var rest := StartableAtStop(cfg, s, routes[1..], roles, at);
      if && route.direction == UsualDirection(cfg.hours, at)
         && route.transitLegs != [] && BoardStop(route.id, route.transitLegs[0].legId) in roles
         && QuietOver(cfg, s, route.id, at)
      then [route] + rest
      else rest
  }

  function StartFromFirstStop(cfg: Config, s: RecorderState, roles: seq<Role>, at: Time): Out {
    var start := FirstRoute(StartableAtStop(cfg, s, cfg.routes, roles, at), UsualDirection(cfg.hours, at));
    if start.None? then Out(s, [])
    else
      var o := StartTrip(s, start.value, at);
      o.(effects := o.effects + [NeedsReview(Note(TripKey(start.value.id, at), None, LeftHomeApproximated, at))])
  }

  // ---- legs --------------------------------------------------------------------------------------

  function PromptFor(trip: ActiveTrip, i: nat): Prompt
    requires trip.Shaped() && i < |trip.legs|
  {
    var leg := trip.route.transitLegs[i];
    Prompt(trip.key, leg.legId, trip.legs[i].attemptSeq, leg.board.name, leg.lineName)
  }

  function ClosingEffects(key: TripKey, p: LegProgress, at: Time): seq<Effect> {
    match p.phase
    case NotStarted => [NeedsReview(Note(key, Some(p.legId), LegSkipped, at))]
    case Waiting =>
      [DismissPrompt(p.legId),
       Enqueue(UpsertAttempt(key, BareUpsert(p.legId, p.attemptSeq).(result := Some(Caught)))),
       NeedsReview(Note(key, Some(p.legId), CaughtInferred, at))]
    case Riding => [NeedsReview(Note(key, Some(p.legId), AlightMissed, at))]
    case Done => []
  }

  /** Ends the first `n` legs; whoever waited there is taken to have boarded. */
  function CloseLegs(trip: ActiveTrip, n: nat, at: Time): (r: (ActiveTrip, seq<Effect>))
    requires n <= |trip.legs|
    ensures r.0 == trip.(legs := r.0.legs) && |r.0.legs| == |trip.legs|
    ensures forall i :: 0 <= i < |trip.legs| ==>
              r.0.legs[i] == if i < n then trip.legs[i].(phase := Done) else trip.legs[i]
  {
    if n == 0 then (trip, [])
    else
      var (front, effects) := CloseLegs(trip, n - 1, at);
      (front.(legs := front.legs[n - 1 := front.legs[n - 1].(phase := Done)]),
       effects + ClosingEffects(trip.key, trip.legs[n - 1], at))
  }

  lemma CloseLegsStep(trip: ActiveTrip, n: nat, at: Time)
    requires 0 < n <= |trip.legs|
    ensures var front := CloseLegs(trip, n - 1, at);
            && front.0.legs[n - 1] == trip.legs[n - 1] && front.0.key == trip.key
            && CloseLegs(trip, n, at).0
               == front.0.(legs := front.0.legs[n - 1 := front.0.legs[n - 1].(phase := Done)])
            && CloseLegs(trip, n, at).1 == front.1 + ClosingEffects(front.0.key, front.0.legs[n - 1], at)
            && forall i :: 0 <= i < |trip.legs| ==> front.0.legs[i].legId == trip.legs[i].legId
  {
  }

  function EnterBoardStop(s: RecorderState, i: nat, at: Time): Out
    requires s.trip.Some? && s.Shaped() && i < |s.trip.value.legs|
  {
    var trip := s.trip.value;
    if trip.legs[i].phase != NotStarted then Out(s, [])
    else if at < trip.leftHomeAt then
      Out(s, [NeedsReview(Note(trip.key, Some(trip.legs[i].legId), TimeOutOfOrder, at))])
    else
      var (closed, effects) := CloseLegs(trip, i, at);
      var t := closed.(legs := closed.legs[i := closed.legs[i].(phase := Waiting)], returnedToOriginAt := None,
                       latestRecordedAt := MaxTime(trip.latestRecordedAt, at));
      Out(s.(trip := Some(t)),
          effects + [Enqueue(UpsertAttempt(trip.key,
                               BareUpsert(trip.route.transitLegs[i].legId, 1).(arrivedAtStopAt := Some(at)))),
                     PromptBoarding(PromptFor(t, i))])
  }

  function EnterAlightStop(s: RecorderState, i: nat, at: Time): Out
    requires s.trip.Some? && s.Shaped() && i < |s.trip.value.legs|
  {
    var trip := s.trip.value;
    var p := trip.legs[i];
    if p.phase == Done then Out(s, [])
    else if at < trip.leftHomeAt then Out(s, [NeedsReview(Note(trip.key, Some(p.legId), TimeOutOfOrder, at))])
    else
      var (closed, closing) := CloseLegs(trip, i, at);
      var early := p.phase == Riding && p.departureAt.Some? && at < p.departureAt.value;
      var u := BareUpsert(p.legId, p.attemptSeq).(
        alightedAt := if early then None else Some(at),
        result := if p.phase == Riding then None else Some(Caught));
      var noted :=
        match p.phase
        case NotStarted => [NeedsReview(Note(trip.key, Some(p.legId), BoardStopMissed, at))]
        case Waiting => [DismissPrompt(p.legId), NeedsReview(Note(trip.key, Some(p.legId), CaughtInferred, at))]
        case _ => if early then [NeedsReview(Note(trip.key, Some(p.legId), TimeOutOfOrder, at))] else [];
      var t := closed.(legs := closed.legs[i := p.(phase := Done)], returnedToOriginAt := None,
                       latestRecordedAt := if early then trip.latestRecordedAt else MaxTime(trip.latestRecordedAt, at));
      Out(s.(trip := Some(t)),
          closing + noted + if u.alightedAt.Some? || u.result.Some? then [Enqueue(UpsertAttempt(trip.key, u))] else [])
  }

  // ---- buttons -----------------------------------------------------------------------------------

  /** The first leg in this phase. */
  function FirstIn(legs: seq<LegProgress>, phase: Phase): (i: Option<nat>)
    ensures i.Some? ==> i.value < |legs| && legs[i.value].phase == phase
    ensures i.Some? ==> forall j :: 0 <= j < i.value ==> legs[j].phase != phase
    ensures i.None? ==> forall j :: 0 <= j < |legs| ==> legs[j].phase != phase
  {
    if legs == [] then None
    else if legs[0].phase == phase then Some(0)
    else
      var rest := FirstIn(legs[1..], phase);
      if rest.Some? then Some(rest.value + 1) else None
  }

  /** The leg a button is about: the one that waits, or the first not started while nobody rides. */
  function AnsweredLeg(legs: seq<LegProgress>): (i: Option<nat>)
    ensures i.Some? ==> i.value < |legs|
  {
    var waiting := FirstIn(legs, Waiting);
    if waiting.Some? then waiting
    else if FirstIn(legs, Riding).Some? then None
    else FirstIn(legs, NotStarted)
  }

  predicate TooEarly(trip: ActiveTrip, p: LegProgress, departedAt: Time) {
    departedAt < trip.leftHomeAt || (p.lastMissedDepartureAt.Some? && departedAt < p.lastMissedDepartureAt.value)
  }

  /** The upsert a button sends; `missed` is absent for "caught" and carries the notes for "missed". */
  function AnswerUpsert(p: LegProgress, departure: Option<Time>, missed: Option<string>): Upsert {
    BareUpsert(p.legId, p.attemptSeq).(
      departureAt := departure,
      result := Some(if missed.None? then Caught else Missed),
      notes := if missed.Some? && missed.value != "" then missed else None)
  }

  function AnsweredProgress(p: LegProgress, departure: Option<Time>, missed: bool, limit: int): LegProgress {
    if !missed then p.(phase := Riding, departureAt := departure)
    else if p.attemptSeq >= limit then p.(phase := Done)
    else
      p.(phase := Waiting, attemptSeq := p.attemptSeq + 1,
         lastMissedDepartureAt :=
           if departure.None? then p.lastMissedDepartureAt
           else Some(MaxTime(if p.lastMissedDepartureAt.Some? then p.lastMissedDepartureAt.value else departure.value,
                             departure.value)))
  }

  /** The button applied to leg `i`. */
  function Answer(limit: int, s: RecorderState, i: nat, departedAt: Time, missed: Option<string>): (o: Out)
    requires s.Shaped() && s.trip.Some? && i < |s.trip.value.legs|
    ensures o.state.Shaped()
  {
    hide CloseLegs;
    var trip := s.trip.value;
    var p := trip.legs[i];
    var (closed, closing) := if p.phase == NotStarted then CloseLegs(trip, i, departedAt) else (trip, []);
    var early := TooEarly(trip, p, departedAt);
    var departure := if early then None else Some(departedAt);
    var p' := AnsweredProgress(p, departure, missed.Some?, limit);
    var t := closed.(legs := closed.legs[i := p'], returnedToOriginAt := None,
                     latestRecordedAt := if early then trip.latestRecordedAt else MaxTime(trip.latestRecordedAt, departedAt));
    Out(s.(trip := Some(t)),
        closing
        + (if early then [NeedsReview(Note(trip.key, Some(p.legId), TimeOutOfOrder, departedAt))] else [])
        + [Enqueue(UpsertAttempt(trip.key, AnswerUpsert(p, departure, missed)))]
        + (match p'.phase
           case Riding => [DismissPrompt(p.legId)]
           case Done => [DismissPrompt(p.legId),
                         NeedsReview(Note(trip.key, Some(p.legId), AttemptLimitReached, departedAt))]
           case Waiting => [PromptBoarding(PromptFor(t, i))]
           case NotStarted => []))
  }

  function UserAnswered(cfg: Config, s: RecorderState, legId: Option<int>, attemptSeq: Option<int>, departedAt: Time,
                        missed: Option<string>): (o: Out)
    requires s.Shaped()
    ensures o.state.Shaped()
  {
    if s.trip.None? then Out(s, [])
    else
      var trip := s.trip.value;
      var answered := AnsweredLeg(trip.legs);
      if answered.None? then Out(s, [])
      else
        var i := answered.value;
        var p := trip.legs[i];
        if legId.Some? && legId.value != p.legId then Out(s, [])
        else if attemptSeq.Some? && attemptSeq.value != p.attemptSeq then Out(s, [])
        else Answer(cfg.policy.maxAttemptSeq, s, i, departedAt, missed)
  }

  // ---- ending ------------------------------------------------------------------------------------

  function FlushGps(s: RecorderState): Out {
    if s.trip.None? || s.trip.value.gpsBuffer == [] then Out(s, [])
    else
      Out(s.(trip := Some(s.trip.value.(gpsBuffer := []))),
          [Enqueue(UploadGps(Some(s.trip.value.key), s.trip.value.gpsBuffer))])
  }

  function DismissWaiting(legs: seq<LegProgress>): seq<Effect> {
    if legs == [] then []
    else
      DismissWaiting(legs[..|legs| - 1])
      + if legs[|legs| - 1].phase == Waiting then [DismissPrompt(legs[|legs| - 1].legId)] else []
  }

  function EndTrip(s: RecorderState, at: Time): Out {
    if s.trip.None? then Out(s, [])
    else
      var trip := s.trip.value;
      Out(RecorderState(None, s.lastTripEndedAt[trip.route.id := at]),
          FlushGps(s).effects + DismissWaiting(trip.legs) + [StopLocationUpdates, TripEnded(trip.key)])
  }

  function CancelTrip(s: RecorderState): Out {
    if s.trip.None? then Out(s, [])
    else
      var trip := s.trip.value;
      Out(s.(trip := None),
          DismissWaiting(trip.legs) + [DiscardOutbox(trip.key), StopLocationUpdates, TripEnded(trip.key)])
  }

  function Arrive(s: RecorderState, at: Time): Out {
    if s.trip.None? then Out(s, [])
    else
      var trip := s.trip.value;
      if at < trip.latestRecordedAt then
        var ended := EndTrip(s, at);
        ended.(effects := [NeedsReview(Note(trip.key, None, TimeOutOfOrder, at))] + ended.effects)
      else
        var (closed, closing) := CloseLegs(trip, |trip.legs|, at);
        var ended := EndTrip(s.(trip := Some(closed)), at);
        ended.(effects := closing + [Enqueue(UpdateTrip(trip.key, TripPatch(None, Some(at))))] + ended.effects)
  }

  function OnTick(cfg: Config, s: RecorderState, now: Time): (o: Out)
    ensures s.Shaped() ==> o.state.Shaped()
  {
    if s.trip.None? then Out(s, [])
    else
      var trip := s.trip.value;
      if trip.returnedToOriginAt.Some? && now - trip.returnedToOriginAt.value >= cfg.policy.abandonAfterReturnHome then
        var ended := EndTrip(s, now);
        ended.(effects := [NeedsReview(Note(trip.key, None, TripAbandoned, now))] + ended.effects)
      else if now - trip.leftHomeAt >= cfg.policy.maxTripDuration then
        var (closed, closing) := CloseLegs(trip, |trip.legs|, now);
        var ended := EndTrip(s.(trip := Some(closed)), now);
        ended.(effects := closing + [NeedsReview(Note(trip.key, None, TripTimedOut, now))] + ended.effects)
      else if trip.gpsBuffer != [] && now - trip.gpsBuffer[0].recordedAt >= cfg.policy.gpsBatchInterval then FlushGps(s)
      else Out(s, [])
  }

  // ---- locations ---------------------------------------------------------------------------------

  predicate Usable(policy: Policy, sample: Sample) {
    sample.accuracy.Some? && 0.0 <= sample.accuracy.value <= policy.maxAccuracyM
  }

  function PointOf(sample: Sample): GpsPoint {
    GpsPoint(sample.recordedAt, sample.lat, sample.lng,
             if sample.speed.Some? && sample.speed.value >= 0.0 then sample.speed else None, sample.accuracy)
  }

  function OnLocation(cfg: Config, s: RecorderState, sample: Sample): (o: Out)
    ensures s.Shaped() ==> o.state.Shaped()
  {
    if s.trip.None? || !Usable(cfg.policy, sample) then Out(s, [])
    else
      var trip := s.trip.value;
      var buffer := trip.gpsBuffer + [PointOf(sample)];
      var s1 := s.(trip := Some(trip.(gpsBuffer := buffer)));
      if |buffer| >= cfg.policy.gpsBatchSize || sample.recordedAt - buffer[0].recordedAt >= cfg.policy.gpsBatchInterval
      then FlushGps(s1)
      else Out(s1, [])
  }

  // ---- entering regions --------------------------------------------------------------------------

  datatype Stop = Stop(index: nat, alight: bool)

  /** The board and alight stops of the route among the roles. */
  function StopsOf(route: Route, roles: seq<Role>): (r: seq<Stop>)
    ensures forall stop :: stop in r ==> stop.index < |route.transitLegs|
  {
    if roles == [] then []
    else
      var rest := StopsOf(route, roles[1..]);
      match roles[0]
      case BoardStop(routeId, legId) =>
        var i := LegIndex(route.transitLegs, legId);
        if routeId == route.id && i.Some? then [Stop(i.value, false)] + rest else rest
      case AlightStop(routeId, legId) =>
        var i := LegIndex(route.transitLegs, legId);
        if routeId == route.id && i.Some? then [Stop(i.value, true)] + rest else rest
      case _ => rest
  }

  /** Leg order, boarding before alighting. */
  predicate StopBefore(a: Stop, b: Stop) {
    a.index < b.index || (a.index == b.index && !a.alight && b.alight)
  }

  function SortStops(stops: seq<Stop>): (r: seq<Stop>)
    ensures multiset(r) == multiset(stops)
  {
    Sorting.StableSort(stops, (a: Stop, b: Stop) => !StopBefore(b, a))
  }

  /** The stops of one region are entered in leg order, boarding before alighting. */
  lemma StopsAreSorted(stops: seq<Stop>)
    ensures var r := SortStops(stops); forall i, j :: 0 <= i < j < |r| ==> !StopBefore(r[j], r[i])
  {
    Sorting.SortSorts(stops, (a: Stop, b: Stop) => !StopBefore(b, a));
  }

  lemma SortedStopsAreStops(stops: seq<Stop>, n: nat)
    requires forall stop :: stop in stops ==> stop.index < n
    ensures forall stop :: stop in SortStops(stops) ==> stop.index < n
  {
    forall stop | stop in SortStops(stops) ensures stop.index < n {
      assert stop in multiset(SortStops(stops));
      assert stop in multiset(stops);
    }
  }

  function EnterStop(s: RecorderState, stop: Stop, at: Time): Out
    requires s.trip.Some? && s.Shaped() && stop.index < |s.trip.value.legs|
  {
    if stop.alight then EnterAlightStop(s, stop.index, at) else EnterBoardStop(s, stop.index, at)
  }

  function EnterStops(s: RecorderState, stops: seq<Stop>, at: Time): (o: Out)
    requires s.trip.Some? && s.Shaped() && forall stop :: stop in stops ==> stop.index < |s.trip.value.legs|
    ensures o.state.trip.Some? && o.state.Shaped()
    ensures o.state.trip.value.key == s.trip.value.key && o.state.trip.value.route == s.trip.value.route
  {
    if stops == [] then Out(s, [])
    else
      var front := EnterStops(s, stops[..|stops| - 1], at);
      var o := EnterStop(front.state, stops[|stops| - 1], at);
      Out(o.state, front.effects + o.effects)
  }

  function EnterOrigin(s: RecorderState, roles: seq<Role>, at: Time): RecorderState {
    if s.trip.Some? && Origin(s.trip.value.route.id) in roles && !s.trip.value.AnyLegStarted()
       && s.trip.value.returnedToOriginAt.None?
    then s.(trip := Some(s.trip.value.(returnedToOriginAt := Some(at))))
    else s
  }

  function EnterRegions(cfg: Config, s: RecorderState, roles: seq<Role>, at: Time): (o: Out)
    requires s.Shaped()
    ensures o.state.Shaped()
  {
    var begun := if s.trip.None? then StartFromFirstStop(cfg, s, roles, at) else Out(s, []);
    if begun.state.trip.None? then begun
    else
      var s1 := EnterOrigin(begun.state, roles, at);
      var route := s1.trip.value.route;
      var stops := SortStops(StopsOf(route, roles));
      SortedStopsAreStops(StopsOf(route, roles), |route.transitLegs|);
      var passed := EnterStops(s1, stops, at);
      var ended := if Destination(route.id) in roles then Arrive(passed.state, at) else Out(passed.state, []);
      Out(ended.state, begun.effects + passed.effects + ended.effects)
  }

  // ---- events ------------------------------------------------------------------------------------

  function Handle(cfg: Config, s: RecorderState, e: Event): (o: Out)
    requires s.Shaped()
    ensures o.state.Shaped()
  {
    hide ExitRegions, EnterRegions, UserAnswered, OnTick, OnLocation;
    match e
    case RegionExited(identifier, at) => ExitRegions(cfg, s, cfg.plan.RolesFor(identifier), at)
    case RegionEntered(identifier, at) => EnterRegions(cfg, s, cfg.plan.RolesFor(identifier), at)
    case UserCaught(legId, attemptSeq, at, departedAt) =>
      UserAnswered(cfg, s, legId, attemptSeq, if departedAt.Some? then departedAt.value else at, None)
    case UserMissed(legId, attemptSeq, at, departedAt, notes) =>
      UserAnswered(cfg, s, legId, attemptSeq, if departedAt.Some? then departedAt.value else at,
                   Some(if notes.Some? then notes.value else ""))
    case UserCancelledTrip(key, _) =>
      if key.None? || (s.trip.Some? && key.value == s.trip.value.key) then CancelTrip(s) else Out(s, [])
    case Location(sample) => OnLocation(cfg, s, sample)
    case Tick(at) => OnTick(cfg, s, at)
  }
}
