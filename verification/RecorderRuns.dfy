/** What ends a trip and what is recorded of its end, over every run of the recorder: told by the events that came before
    and the commands that were sent. */
module RecorderRuns {
  import opened Basics
  import opened Commands
  import opened Routes
  import opened RecorderModel
  import opened RecorderStops
  import opened RecorderLaws
  import GeofenceNames

  /** An event, under the routes and the plan of its time. */
  datatype Moment = Moment(cfg: Config, event: Event)

  ghost predicate Proper(cfg: Config) {
    GeofenceNames.DistinctIds(cfg.routes) && forall route :: route in cfg.routes ==> route.Distinct()
  }

  ghost predicate AllProper(ms: seq<Moment>) {
    forall m :: m in ms ==> Proper(m.cfg)
  }

  /** The state after a run. */
  function After(ms: seq<Moment>): (s: RecorderState)
    ensures s.Shaped()
  {
    if ms == [] then Resting else Handle(ms[|ms| - 1].cfg, After(ms[..|ms| - 1]), ms[|ms| - 1].event).state
  }

  /** What the run asked for since the trip began. */
  function Sent(ms: seq<Moment>): seq<Effect> {
    if ms == [] then []
    else
      var n := |ms| - 1;
      var now := Handle(ms[n].cfg, After(ms[..n]), ms[n].event).effects;
      if After(ms[..n]).trip.None? then now else Sent(ms[..n]) + now
  }

  /** The time is part of an attempt that was sent for the trip. */
  ghost predicate Recorded(effects: seq<Effect>, key: TripKey, t: Time) {
    exists u :: Enqueue(UpsertAttempt(key, u)) in effects && HasTime(u, t)
  }

  predicate HasTime(u: Upsert, t: Time) {
    u.arrivedAtStopAt == Some(t) || u.departureAt == Some(t) || u.alightedAt == Some(t)
  }

  ghost predicate Begun(trip: ActiveTrip) {
    exists p :: p in trip.legs && p.phase != NotStarted
  }

  ghost predicate Sound(s: RecorderState) {
    s.trip.Some? ==> s.trip.value.route.Distinct() && s.trip.value.leftHomeAt <= s.trip.value.latestRecordedAt
  }

  // ---- one event ---------------------------------------------------------------------------------

  /** The latest time of the trip is the latest that was recorded, or its departure. */
  ghost predicate LatestGrows(trip: ActiveTrip, trip': ActiveTrip, effects: seq<Effect>) {
    && trip'.leftHomeAt <= trip'.latestRecordedAt && trip.latestRecordedAt <= trip'.latestRecordedAt
    && (forall t :: Recorded(effects, trip.key, t) ==> t <= trip'.latestRecordedAt)
    && (|| trip'.latestRecordedAt == trip.latestRecordedAt
        || Recorded(effects, trip.key, trip'.latestRecordedAt))
  }

  /** The trip goes on under its key and route. */
  ghost predicate GoesOn(trip: ActiveTrip, trip': ActiveTrip, back: Option<Time>, effects: seq<Effect>) {
    && trip'.key == trip.key && trip'.route == trip.route
    && (if trip'.legs != trip.legs then Begun(trip') else forall t :: !Recorded(effects, trip.key, t))
    && (trip'.returnedToOriginAt ==
        if trip'.legs != trip.legs || trip'.leftHomeAt != trip.leftHomeAt then None
        else if back.Some? && trip.returnedToOriginAt.None? && !Begun(trip) then back
        else trip.returnedToOriginAt)
    && (trip'.leftHomeAt == trip.leftHomeAt ==> LatestGrows(trip, trip', effects))
    && (trip'.leftHomeAt != trip.leftHomeAt ==>
          && trip.leftHomeAt < trip'.leftHomeAt == trip'.latestRecordedAt && !Begun(trip) && trip'.legs == trip.legs
          && effects == [Enqueue(UpdateTrip(trip.key, TripPatch(Some(trip'.leftHomeAt), None)))])
  }

  /** The time at which the event reaches the origin of the trip. */
  function BackWith(cfg: Config, trip: ActiveTrip, e: Event): Option<Time> {
    if e.RegionEntered? && Origin(trip.route.id) in cfg.plan.RolesFor(e.identifier) then Some(e.at) else None
  }

  lemma ToldTimes(trip: ActiveTrip, reach: Reach, all: bool, at: Time, key: TripKey, u: Upsert, t: Time)
    requires Told(trip, reach, all, at, Enqueue(UpsertAttempt(key, u))) && HasTime(u, t)
    ensures t == at && TimeTaken(trip, reach, at) && trip.leftHomeAt <= at
  {
    hide Passed;
  }

  lemma TimesAreTold(trip: ActiveTrip, reach: Reach, all: bool, at: Time) returns (u: Upsert)
    requires TimeTaken(trip, reach, at) && trip.leftHomeAt <= at
    ensures Told(trip, reach, all, at, Enqueue(UpsertAttempt(trip.key, u))) && HasTime(u, at)
  {
    hide Passed;
    var i: nat :| BoardCounts(trip, reach, i) || (AlightCounts(trip, reach, i) && !OffTooEarly(trip, i, at));
    var p := trip.legs[i];
    if BoardCounts(trip, reach, i) {
      u := Upsert(p.legId, Some(1), Some(at), None, None, None, None, None);
    } else {
      u := Upsert(p.legId, Some(p.attemptSeq), None, None, None, Some(at), if p.phase == Riding then None else Some(Caught),
                  None);
    }
    assert Says(trip, reach, all, i, at, Enqueue(UpsertAttempt(trip.key, u)));
  }

  lemma LegsOnlyWhenCounted(trip: ActiveTrip, reach: Reach, at: Time, trip': ActiveTrip)
    requires TripAfter(trip, reach, at, trip') && trip.leftHomeAt <= at
    ensures trip'.legs != trip.legs <==> AnyCounts(trip, reach)
    ensures trip'.legs != trip.legs ==> Begun(trip')
  {
    hide TimeTaken;
    if i: nat :| Counts(trip, reach, i) {
      assert LegAfter(trip, reach, i, trip'.legs[i]);
      assert trip'.legs[i] in trip'.legs && trip'.legs[i].phase != trip.legs[i].phase;
    } else {
      forall i: nat | i < |trip.legs| ensures trip'.legs[i] == trip.legs[i] {
        assert LegAfter(trip, reach, i, trip'.legs[i]) && !Counts(trip, reach, i) && !Passed(trip, reach, i);
      }
    }
  }

  lemma ReachingLatest(cfg: Config, s: RecorderState, trip: ActiveTrip, roles: seq<Role>, at: Time, state': RecorderState,
                       effects: seq<Effect>)
    requires Reaches(cfg, s, trip, roles, at, state', effects) && Destination(trip.route.id) !in roles
    requires trip.leftHomeAt <= trip.latestRecordedAt
    ensures state'.trip.Some? && LatestGrows(trip, state'.trip.value, effects)
  {
    var came, reach, trip' := BackAt(trip, roles, at), RegionReach(trip.route, roles), state'.trip.value;
    hide RegionReach, Told, TimeTaken, AnyCounts;
    forall t | Recorded(effects, trip.key, t) ensures t == at && TimeTaken(came, reach, at) && trip.leftHomeAt <= at {
      var u :| Enqueue(UpsertAttempt(trip.key, u)) in effects && HasTime(u, t);
      assert Told(came, reach, false, at, Enqueue(UpsertAttempt(trip.key, u)));
      ToldTimes(came, reach, false, at, trip.key, u, t);
    }
    if trip.leftHomeAt <= at && TimeTaken(came, reach, at) {
      var u := TimesAreTold(came, reach, false, at);
      assert Enqueue(UpsertAttempt(trip.key, u)) in effects;
      assert Recorded(effects, trip.key, at);
    }
  }

  /** Reaching a region other than the destination. */
  lemma ReachingGoesOn(cfg: Config, s: RecorderState, trip: ActiveTrip, roles: seq<Role>, at: Time, state': RecorderState,
                       effects: seq<Effect>)
    requires Reaches(cfg, s, trip, roles, at, state', effects) && Destination(trip.route.id) !in roles
    requires trip.leftHomeAt <= trip.latestRecordedAt
    ensures state'.trip.Some?
    ensures GoesOn(trip, state'.trip.value, if Origin(trip.route.id) in roles then Some(at) else None, effects)
  {
    var came, reach, trip' := BackAt(trip, roles, at), RegionReach(trip.route, roles), state'.trip.value;
    hide RegionReach, Told, TimeTaken, AnyCounts, LatestGrows;
    if trip.leftHomeAt <= at {
      LegsOnlyWhenCounted(came, reach, at, trip');
    }
    ReachingLatest(cfg, s, trip, roles, at, state', effects);
    assert !Begun(trip) <==> forall p :: p in trip.legs ==> p.phase == NotStarted;
  }

  // ---- the other events --------------------------------------------------------------------------

  lemma NothingGoesOn(trip: ActiveTrip, effects: seq<Effect>)
    requires trip.leftHomeAt <= trip.latestRecordedAt
    requires forall e :: e in effects ==> e.Enqueue? ==> !e.command.UpsertAttempt?
    ensures forall buffer :: GoesOn(trip, trip.(gpsBuffer := buffer), None, effects)
  {
  }

  lemma AnsweredGoesOn(trip: ActiveTrip, i: nat, p': LegProgress, left: Time, result: BoardingResult,
                       notes: Option<string>, rest: seq<Effect>)
    requires trip.leftHomeAt <= trip.latestRecordedAt && i < |trip.legs| && p' != trip.legs[i] && p'.phase != NotStarted
    requires forall e :: e in rest ==> !e.Enqueue?
    ensures GoesOn(trip, Answered(trip, i, p', left), None,
                   AnswerEffects(trip, trip.legs[i], left, result, notes) + rest)
  {
    var trip', p := Answered(trip, i, p', left), trip.legs[i];
    var effects := AnswerEffects(trip, p, left, result, notes) + rest;
    assert trip'.legs[i] == p' && p' in trip'.legs;
    var early := LeftTooEarly(trip, p, left);
    var u := Upsert(p.legId, Some(p.attemptSeq), None, None, if early then None else Some(left), None, Some(result), notes);
    assert forall v :: Enqueue(UpsertAttempt(trip.key, v)) in effects <==> v == u;
    assert Enqueue(UpsertAttempt(trip.key, u)) in effects;
    assert early || HasTime(u, left);
  }

  lemma NothingChanges(trip: ActiveTrip)
    requires trip.leftHomeAt <= trip.latestRecordedAt
    ensures GoesOn(trip, trip, None, [])
  {
  }

  lemma CaughtGoesOn(cfg: Config, s: RecorderState, i: nat, e: Event)
    requires s.Shaped() && Sound(s) && s.trip.Some? && e.UserCaught? && IsAsked(s.trip.value.legs, i)
    ensures var o := Handle(cfg, s, e); o.state.trip.Some? && GoesOn(s.trip.value, o.state.trip.value, None, o.effects)
  {
    var (trip, left) := (s.trip.value, if e.departedAt.Some? then e.departedAt.value else e.at);
    var p := trip.legs[i];
    var p' := p.(phase := Riding, departureAt := if LeftTooEarly(trip, p, left) then None else Some(left));
    CaughtMeans(cfg, s, i, e.legId, e.attemptSeq, e.at, e.departedAt);
    NothingChanges(trip);
    AnsweredGoesOn(trip, i, p', left, Caught, None, [DismissPrompt(p.legId)]);
    hide GoesOn, Handle, IsAsked, Answered, AnswerEffects, LeftTooEarly, Means;
  }

  lemma MissedGoesOn(cfg: Config, s: RecorderState, i: nat, e: Event)
    requires s.Shaped() && Sound(s) && s.trip.Some? && e.UserMissed? && IsAsked(s.trip.value.legs, i)
    ensures var o := Handle(cfg, s, e); o.state.trip.Some? && GoesOn(s.trip.value, o.state.trip.value, None, o.effects)
  {
    hide GoesOn, Handle, IsAsked, Answered, AnswerEffects, LeftTooEarly, Means, NextAttempt, AnsweredProgress;
    AskedIsOpen(s.trip.value.legs, i);
    var (trip, left) := (s.trip.value, if e.departedAt.Some? then e.departedAt.value else e.at);
    var (p, notes) := (trip.legs[i], if e.notes == Some("") then None else e.notes);
    MissedMeans(cfg, s, i, e.legId, e.attemptSeq, e.at, e.departedAt, e.notes);
    NothingChanges(trip);
    if p.attemptSeq >= cfg.policy.maxAttemptSeq {
      AnsweredGoesOn(trip, i, p.(phase := Done), left, Missed, notes,
                     [DismissPrompt(p.legId), NeedsReview(Note(trip.key, Some(p.legId), AttemptLimitReached, left))]);
    } else {
      NextIs(trip, p, left, cfg.policy.maxAttemptSeq);
      AnsweredGoesOn(trip, i, NextAttempt(trip, p, left), left, Missed, notes,
                     [PromptBoarding(Prompt(trip.key, p.legId, p.attemptSeq + 1, trip.route.transitLegs[i].board.name,
                                            trip.route.transitLegs[i].lineName))]);
    }
  }

  lemma ButtonGoesOn(cfg: Config, s: RecorderState, e: Event)
    requires s.Shaped() && Sound(s) && s.trip.Some? && (e.UserCaught? || e.UserMissed?)
    ensures var o := Handle(cfg, s, e); o.state.trip.Some? && GoesOn(s.trip.value, o.state.trip.value, None, o.effects)
  {
    var trip := s.trip.value;
    if i: nat :| IsAsked(trip.legs, i) {
      if e.UserCaught? {
        CaughtGoesOn(cfg, s, i, e);
      } else {
        MissedGoesOn(cfg, s, i, e);
      }
    } else {
      var notes := if e.UserMissed? then e.notes else None;
      NobodyAsked(cfg, s, e.legId, e.attemptSeq, e.at, e.departedAt, notes);
      NothingChanges(trip);
      hide GoesOn, Handle, IsAsked;
      assert Handle(cfg, s, e) == Out(s, []);
    }
  }

  // ---- what ends a trip --------------------------------------------------------------------------

  /** The destination is reached, the user cancels, or the clock says so. */
  predicate Ends(cfg: Config, trip: ActiveTrip, e: Event) {
    match e
    case RegionEntered(id, _) => Destination(trip.route.id) in cfg.plan.RolesFor(id)
    case UserCancelledTrip(key, _) => key.None? || key == Some(trip.key)
    case Tick(now) => BackTooLong(cfg.policy, trip, now) || OutTooLong(cfg.policy, trip, now)
    case _ => false
  }

  /** Only these events end a trip; any other leaves it under its key and route, keeps the time of the return to the
      origin up to date, and moves the departure only to a later time and before any leg. */
  lemma TripEndsExactlyWhen(cfg: Config, s: RecorderState, e: Event)
    requires s.Shaped() && Sound(s) && s.trip.Some?
    ensures var (trip, o) := (s.trip.value, Handle(cfg, s, e));
            && (o.state.trip.None? <==> Ends(cfg, trip, e))
            && (!Ends(cfg, trip, e) ==> GoesOn(trip, o.state.trip.value, BackWith(cfg, trip, e), o.effects))
  {
    var trip := s.trip.value;
    match e
    case RegionExited(id, at) =>
      DepartureMovesExactlyWhen(cfg, s, id, at);
      NothingChanges(trip);
      if LeavesAgain(cfg, trip, id, at) {
        MovedGoesOn(cfg, trip, id, at);
      }
      hide GoesOn, Handle, LeavesAgain;
    case RegionEntered(id, at) =>
      ReachingMeans(cfg, s, id, at);
      var o, roles := Handle(cfg, s, e), cfg.plan.RolesFor(id);
      if Destination(trip.route.id) !in roles {
        ReachingGoesOn(cfg, s, trip, roles, at, o.state, o.effects);
      }
      hide GoesOn, Handle, TripAfter, Told;
    case UserCaught(_, _, _, _) => ButtonGoesOn(cfg, s, e); hide GoesOn, Handle;
    case UserMissed(_, _, _, _, _) => ButtonGoesOn(cfg, s, e); hide GoesOn, Handle;
    case UserCancelledTrip(key, at) =>
      CancellingMeans(cfg, s, key, at);
      NothingChanges(trip);
      hide GoesOn, Handle;
    case Location(x) =>
      SampleMeans(cfg, s, x);
      SampleGoesOn(cfg, s, x);
      hide GoesOn, Handle;
    case Tick(now) =>
      TickMeans(cfg, s, now);
      NothingChanges(trip);
      NothingGoesOn(trip, [Enqueue(UploadGps(Some(trip.key), trip.gpsBuffer))]);
      hide GoesOn, Handle;
  }

  lemma MovedGoesOn(cfg: Config, trip: ActiveTrip, id: string, at: Time)
    requires LeavesAgain(cfg, trip, id, at)
    ensures GoesOn(trip, trip.(leftHomeAt := at, latestRecordedAt := at, returnedToOriginAt := None), None,
                   [Enqueue(UpdateTrip(trip.key, TripPatch(Some(at), None)))])
  {
  }

  lemma SampleGoesOn(cfg: Config, s: RecorderState, x: Sample)
    requires s.Shaped() && Sound(s) && s.trip.Some?
    ensures var o := Handle(cfg, s, Location(x)); o.state.trip.Some? && GoesOn(s.trip.value, o.state.trip.value, None, o.effects)
  {
    var trip, o := s.trip.value, Handle(cfg, s, Location(x));
    SampleMeans(cfg, s, x);
    NothingChanges(trip);
    NothingGoesOn(trip, []);
    if o.effects != [] {
      NothingGoesOn(trip, o.effects);
    }
    hide GoesOn, Handle;
  }

  /** A new trip: no return to the origin yet, and nothing recorded but at its departure. */
  ghost predicate Starts(trip: ActiveTrip, effects: seq<Effect>) {
    && trip.returnedToOriginAt.None? && trip.route.Distinct()
    && trip.leftHomeAt == trip.key.leftHomeAt == trip.latestRecordedAt
    && (forall t :: Recorded(effects, trip.key, t) ==> t == trip.latestRecordedAt)
    && (!Begun(trip) ==> forall t :: !Recorded(effects, trip.key, t))
  }

  lemma TripBegins(cfg: Config, s: RecorderState, e: Event)
    requires s.Shaped() && s.trip.None? && Proper(cfg)
    ensures var o := Handle(cfg, s, e); o.state.trip.Some? ==> Starts(o.state.trip.value, o.effects)
  {
    match e
    case RegionExited(id, at) =>
      UsualIs(cfg.hours, at);
      LeavingStartsExactlyWhen(cfg, s, id, at, KstDate(at));
      hide Handle, IsUsual;
    case RegionEntered(id, at) =>
      UsualIs(cfg.hours, at);
      var begun, rest := ReachingStartsExactlyWhen(cfg, s, id, at, KstDate(at));
      hide Handle, IsUsual, Reaches, MayStartAtStop;
      if exists route :: MayStartAtStop(cfg, s, id, at, route) {
        ReachedStarts(cfg, s, id, at, KstDate(at), begun, Handle(cfg, s, e).state, rest, Handle(cfg, s, e).effects);
      }
    case _ =>
  }

  lemma ReachedStarts(cfg: Config, s: RecorderState, id: string, at: Time, day: int, begun: ActiveTrip,
                      state': RecorderState, rest: seq<Effect>, effects: seq<Effect>)
    requires Proper(cfg) && StartsAtStop(cfg, s, id, at, begun.route) && IsFresh(begun, begun.route, at)
    requires Reaches(cfg, s, begun, cfg.plan.RolesFor(id), at, state', rest)
    requires effects == [Enqueue(CreateTrip(begun.key, day)), StartLocationUpdates,
                         NeedsReview(Note(begun.key, None, LeftHomeApproximated, at))] + rest
    ensures state'.trip.Some? ==> Starts(state'.trip.value, effects)
  {
    var roles := cfg.plan.RolesFor(id);
    if state'.trip.Some? {
      ReachingGoesOn(cfg, s, begun, roles, at, state', rest);
      var came, reach := BackAt(begun, roles, at), RegionReach(begun.route, roles);
      assert BoardCounts(came, reach, 0);
      assert Counts(came, reach, 0);
      LegsOnlyWhenCounted(came, reach, at, state'.trip.value);
      hide RegionReach, TimeTaken, AnyCounts, GoesOn;
      forall t | Recorded(effects, begun.key, t) ensures t == at {
        var u :| Enqueue(UpsertAttempt(begun.key, u)) in effects && HasTime(u, t);
        assert Enqueue(UpsertAttempt(begun.key, u)) in rest;
        ToldTimes(came, reach, false, at, begun.key, u, t);
      }
    }
  }

  // ---- over runs ---------------------------------------------------------------------------------

  lemma LastMoment(ms: seq<Moment>, m: Moment)
    ensures After(ms + [m]) == Handle(m.cfg, After(ms), m.event).state
    ensures var now := Handle(m.cfg, After(ms), m.event).effects;
            Sent(ms + [m]) == if After(ms).trip.None? then now else Sent(ms) + now
  {
    hide Handle;
    assert (ms + [m])[..|ms|] == ms;
  }

  /** The latest time of the trip is its departure or was recorded for it, and nothing later was. */
  ghost predicate LatestIs(trip: ActiveTrip, sent: seq<Effect>) {
    && trip.leftHomeAt <= trip.latestRecordedAt
    && (forall t :: Recorded(sent, trip.key, t) ==> t <= trip.latestRecordedAt)
    && (trip.latestRecordedAt == trip.leftHomeAt || Recorded(sent, trip.key, trip.latestRecordedAt))
  }

  lemma RecordedConcat(a: seq<Effect>, b: seq<Effect>, key: TripKey, t: Time)
    ensures Recorded(a + b, key, t) <==> Recorded(a, key, t) || Recorded(b, key, t)
  {
    if Recorded(a, key, t) {
      var u :| Enqueue(UpsertAttempt(key, u)) in a && HasTime(u, t);
      assert Enqueue(UpsertAttempt(key, u)) in a + b;
    }
    if Recorded(b, key, t) {
      var u :| Enqueue(UpsertAttempt(key, u)) in b && HasTime(u, t);
      assert Enqueue(UpsertAttempt(key, u)) in a + b;
    }
  }

  lemma LatestStays(trip: ActiveTrip, trip': ActiveTrip, back: Option<Time>, sent: seq<Effect>, effects: seq<Effect>)
    requires LatestIs(trip, sent) && GoesOn(trip, trip', back, effects)
    requires !Begun(trip) ==> forall t :: !Recorded(sent, trip.key, t)
    ensures LatestIs(trip', sent + effects)
    ensures !Begun(trip') ==> forall t :: !Recorded(sent + effects, trip.key, t)
  {
    assert trip'.legs == trip.legs ==> (Begun(trip') <==> Begun(trip));
    hide Begun, Recorded;
    forall t ensures Recorded(sent + effects, trip.key, t) <==> Recorded(sent, trip.key, t) || Recorded(effects, trip.key, t) {
      RecordedConcat(sent, effects, trip.key, t);
    }
  }

  /** What holds over every run. */
  lemma {:induction false} RunsAreSound(ms: seq<Moment>)
    requires AllProper(ms)
    ensures var s := After(ms);
            Sound(s) && (s.trip.Some? ==> LatestIs(s.trip.value, Sent(ms))
                                          && (!Begun(s.trip.value) ==> forall t :: !Recorded(Sent(ms), s.trip.value.key, t)))
  {
    hide Handle, GoesOn, LatestIs, Begun, Recorded, Ends, Proper;
    if ms != [] {
      var front, m := ms[..|ms| - 1], ms[|ms| - 1];
      assert ms == front + [m];
      RunsAreSound(front);
      LastMoment(front, m);
      var s := After(front);
      if s.trip.None? {
        TripBegins(m.cfg, s, m.event);
        if After(ms).trip.Some? {
          BegunIsSound(After(ms).trip.value, Sent(ms));
        }
      } else {
        TripEndsExactlyWhen(m.cfg, s, m.event);
        if After(ms).trip.Some? {
          var effects := Handle(m.cfg, s, m.event).effects;
          GoneOnIsSound(s.trip.value, After(ms).trip.value, BackWith(m.cfg, s.trip.value, m.event), Sent(front), effects);
        }
      }
    }
  }

  lemma BegunIsSound(trip: ActiveTrip, sent: seq<Effect>)
    requires Starts(trip, sent)
    ensures LatestIs(trip, sent) && trip.route.Distinct()
    ensures !Begun(trip) ==> forall t :: !Recorded(sent, trip.key, t)
  {
    hide Recorded, Begun;
  }

  lemma GoneOnIsSound(trip: ActiveTrip, trip': ActiveTrip, back: Option<Time>, sent: seq<Effect>, effects: seq<Effect>)
    requires LatestIs(trip, sent) && GoesOn(trip, trip', back, effects) && trip.route.Distinct()
    requires !Begun(trip) ==> forall t :: !Recorded(sent, trip.key, t)
    ensures LatestIs(trip', sent + effects) && trip'.route.Distinct() && trip'.key == trip.key
    ensures trip'.leftHomeAt <= trip'.latestRecordedAt
    ensures !Begun(trip') ==> forall t :: !Recorded(sent + effects, trip'.key, t)
  {
    LatestStays(trip, trip', back, sent, effects);
    hide Recorded, Begun;
  }

  /** Over every run: at the destination the arrival is recorded exactly when it is not before the departure and not
      before any time that was recorded for the trip. */
  lemma ArrivalExactlyWhen(ms: seq<Moment>, cfg: Config, id: string, at: Time)
    requires AllProper(ms) && After(ms).trip.Some?
    requires Destination(After(ms).trip.value.route.id) in cfg.plan.RolesFor(id)
    ensures var trip := After(ms).trip.value;
            Enqueue(UpdateTrip(trip.key, TripPatch(None, Some(at)))) in Handle(cfg, After(ms), RegionEntered(id, at)).effects
            <==> trip.leftHomeAt <= at && forall t :: Recorded(Sent(ms), trip.key, t) ==> t <= at
  {
    RunsAreSound(ms);
    var s := After(ms);
    ReachingMeans(cfg, s, id, at);
    hide Handle, After, Recorded, Sent;
    ArrivalIsTold(s.trip.value, cfg.plan.RolesFor(id), at);
  }

  lemma ArrivalIsTold(trip: ActiveTrip, roles: seq<Role>, at: Time)
    ensures var e := Enqueue(UpdateTrip(trip.key, TripPatch(None, Some(at))));
            && (DestinationTells(trip, at, e) <==> trip.latestRecordedAt <= at)
            && forall reach, all :: !Told(BackAt(trip, roles, at), reach, all, at, e)
  {
  }

  // ---- back at the origin ------------------------------------------------------------------------

  /** The same trip with the same departure, and no leg begun yet. */
  ghost predicate Unmoved(a: RecorderState, b: RecorderState) {
    && a.trip.Some? && b.trip.Some? && a.trip.value.key == b.trip.value.key
    && a.trip.value.leftHomeAt == b.trip.value.leftHomeAt && !Begun(a.trip.value)
  }

  predicate ReachesOrigin(m: Moment, trip: ActiveTrip) {
    m.event.RegionEntered? && Origin(trip.route.id) in m.cfg.plan.RolesFor(m.event.identifier)
  }

  /** Event `k` brought the rider back to the origin, and since before it the trip has not moved. */
  ghost predicate BackSince(ms: seq<Moment>, k: nat) {
    && k < |ms| && After(ms).trip.Some? && ReachesOrigin(ms[k], After(ms).trip.value)
    && forall j :: k <= j <= |ms| ==> Unmoved(After(ms[..j]), After(ms))
  }

  /** The first such event. */
  ghost predicate FirstBack(ms: seq<Moment>, k: nat) {
    BackSince(ms, k) && forall earlier: nat :: earlier < k ==> !BackSince(ms, earlier)
  }

  ghost predicate FirstBackAt(ms: seq<Moment>, k: nat, t: Time) {
    FirstBack(ms, k) && ms[k].event.at == t
  }

  ghost predicate BackIsKnown(ms: seq<Moment>)
    requires After(ms).trip.Some?
  {
    var returned := After(ms).trip.value.returnedToOriginAt;
    if returned.None? then forall k: nat :: !BackSince(ms, k)
    else exists k: nat :: FirstBackAt(ms, k, returned.value)
  }

  lemma NotYetBack(ms: seq<Moment>, m: Moment, k: nat)
    requires After(ms).trip.None?
    ensures !BackSince(ms + [m], k)
  {
    hide After, ReachesOrigin, Begun;
    assert (ms + [m])[..|ms|] == ms;
  }

  lemma MovedOn(ms: seq<Moment>, m: Moment, k: nat)
    requires After(ms).trip.Some? && After(ms + [m]).trip.Some?
    requires var (trip, trip') := (After(ms).trip.value, After(ms + [m]).trip.value);
             trip'.leftHomeAt != trip.leftHomeAt || Begun(trip')
    ensures !BackSince(ms + [m], k)
  {
    hide After, ReachesOrigin, Begun;
    assert (ms + [m])[..|ms|] == ms && (ms + [m])[..|ms| + 1] == ms + [m];
  }

  /** The trip did not move: whoever was back still is, and this event may be the first. */
  lemma StillBack(ms: seq<Moment>, m: Moment, k: nat)
    requires After(ms).trip.Some? && After(ms + [m]).trip.Some?
    requires var (trip, trip') := (After(ms).trip.value, After(ms + [m]).trip.value);
             && trip'.key == trip.key && trip'.route == trip.route && trip'.leftHomeAt == trip.leftHomeAt
             && (Begun(trip') <==> Begun(trip))
    ensures k < |ms| ==> (BackSince(ms + [m], k) <==> BackSince(ms, k))
    ensures k == |ms| ==> (BackSince(ms + [m], k) <==> ReachesOrigin(m, After(ms).trip.value) && !Begun(After(ms).trip.value))
  {
    hide After, Begun;
    var all := ms + [m];
    assert all[..|ms|] == ms && all[..|ms| + 1] == all && ms[..|ms|] == ms;
    forall j | 0 <= j <= |ms| ensures all[..j] == ms[..j] && (Unmoved(After(all[..j]), After(all)) <==> Unmoved(After(ms[..j]), After(ms))) {
    }
  }

  lemma {:induction false} BackOverRuns(ms: seq<Moment>)
    requires AllProper(ms) && After(ms).trip.Some?
    ensures BackIsKnown(ms)
  {
    hide Handle, GoesOn, Begun, Ends, Proper, BackIsKnown, After, BackSince;
    if ms == [] {
      NoTripYet();
    } else {
      var front, m := ms[..|ms| - 1], ms[|ms| - 1];
      assert ms == front + [m];
      RunsAreSound(front);
      LastMoment(front, m);
      var s := After(front);
      if s.trip.None? {
        TripBegins(m.cfg, s, m.event);
        BackAtNone(front, m);
      } else {
        BackOverRuns(front);
        TripEndsExactlyWhen(m.cfg, s, m.event);
        BackGoesOn(front, m, Handle(m.cfg, s, m.event).effects);
      }
    }
  }

  lemma NoTripYet()
    ensures After([]).trip.None?
  {
  }

  lemma BackAtNone(ms: seq<Moment>, m: Moment)
    requires After(ms).trip.None? && After(ms + [m]).trip.Some?
    requires After(ms + [m]).trip.value.returnedToOriginAt.None?
    ensures BackIsKnown(ms + [m])
  {
    hide After, BackSince;
    forall k: nat ensures !BackSince(ms + [m], k) {
      NotYetBack(ms, m, k);
    }
  }

  lemma BackGoesOn(ms: seq<Moment>, m: Moment, effects: seq<Effect>)
    requires After(ms).trip.Some? && After(ms + [m]).trip.Some? && BackIsKnown(ms)
    requires var (trip, trip') := (After(ms).trip.value, After(ms + [m]).trip.value);
             GoesOn(trip, trip', BackWith(m.cfg, trip, m.event), effects)
    ensures BackIsKnown(ms + [m])
  {
    var (trip, trip') := (After(ms).trip.value, After(ms + [m]).trip.value);
    hide After, BackSince, Begun, LatestGrows, Recorded;
    if trip'.legs != trip.legs || trip'.leftHomeAt != trip.leftHomeAt {
      forall k: nat ensures !BackSince(ms + [m], k) {
        MovedOn(ms, m, k);
      }
    } else {
      SameLegsBegun(trip, trip');
      BackStays(ms, m);
    }
  }

  lemma SameLegsBegun(trip: ActiveTrip, trip': ActiveTrip)
    requires trip'.legs == trip.legs
    ensures Begun(trip') <==> Begun(trip)
  {
  }

  lemma BackStays(ms: seq<Moment>, m: Moment)
    requires After(ms).trip.Some? && After(ms + [m]).trip.Some? && BackIsKnown(ms)
    requires var (trip, trip') := (After(ms).trip.value, After(ms + [m]).trip.value);
             var back := BackWith(m.cfg, trip, m.event);
             && trip'.key == trip.key && trip'.route == trip.route && trip'.leftHomeAt == trip.leftHomeAt
             && (Begun(trip') <==> Begun(trip))
             && trip'.returnedToOriginAt == if back.Some? && trip.returnedToOriginAt.None? && !Begun(trip) then back
                                            else trip.returnedToOriginAt
    ensures BackIsKnown(ms + [m])
  {
    hide After, BackSince, Begun;
    var trip, all := After(ms).trip.value, ms + [m];
    forall k: nat | k <= |ms|
      ensures BackSince(all, k) <==> if k < |ms| then BackSince(ms, k) else ReachesOrigin(m, trip) && !Begun(trip)
    {
      StillBack(ms, m, k);
    }
    forall k: nat | k > |ms| ensures !BackSince(all, k) {
      BackWithin(all, k);
    }
    if trip.returnedToOriginAt.Some? {
      var k: nat :| FirstBackAt(ms, k, trip.returnedToOriginAt.value);
      BackWithin(ms, k);
      assert all[k] == ms[k] && FirstBackAt(all, k, trip.returnedToOriginAt.value);
    } else if ReachesOrigin(m, trip) && !Begun(trip) {
      assert FirstBackAt(all, |ms|, m.event.at);
    }
  }

  lemma BackWithin(ms: seq<Moment>, k: nat)
    ensures BackSince(ms, k) ==> k < |ms|
  {
  }

  /** Over every run: a tick ends a trip exactly when the rider has been back at the origin for `abandonAfterReturnHome`
      since the first return of this departure, with no leg begun since; or the departure is `maxTripDuration` ago. */
  lemma TickExactlyWhen(ms: seq<Moment>, cfg: Config, now: Time)
    requires AllProper(ms) && After(ms).trip.Some?
    ensures Handle(cfg, After(ms), Tick(now)).state.trip.None? <==>
            || (exists k: nat :: FirstBack(ms, k) && now - ms[k].event.at >= cfg.policy.abandonAfterReturnHome)
            || now - After(ms).trip.value.leftHomeAt >= cfg.policy.maxTripDuration
  {
    BackOverRuns(ms);
    RunsAreSound(ms);
    TripEndsExactlyWhen(cfg, After(ms), Tick(now));
    hide Handle, After, BackSince;
    forall j: nat, k: nat | FirstBack(ms, j) && FirstBack(ms, k) ensures j == k {
    }
    forall k: nat | FirstBack(ms, k) ensures k < |ms| {
      BackWithin(ms, k);
    }
  }

  /** With the policy in use: after half an hour back at the origin, or four hours out. */
  lemma DefaultTick(ms: seq<Moment>, cfg: Config, now: Time)
    requires AllProper(ms) && After(ms).trip.Some? && cfg.policy == DefaultPolicy
    ensures Handle(cfg, After(ms), Tick(now)).state.trip.None? <==>
            || (exists k: nat :: FirstBack(ms, k) && now - ms[k].event.at >= 30 * 60_000)
            || now - After(ms).trip.value.leftHomeAt >= 4 * 60 * 60_000
  {
    TickExactlyWhen(ms, cfg, now);
    hide Handle, After, FirstBack;
  }

  /** With the policy in use: a sample is dropped exactly when its accuracy is unknown, below zero or above 100 m. */
  lemma DefaultSample(cfg: Config, s: RecorderState, x: Sample)
    requires s.Shaped() && s.trip.Some? && cfg.policy == DefaultPolicy
    ensures Handle(cfg, s, Location(x)) == Out(s, []) <==>
            x.accuracy.None? || x.accuracy.value < 0.0 || x.accuracy.value > 100.0
  {
    SampleMeans(cfg, s, x);
    hide Handle;
    assert forall p: GpsPoint :: |s.trip.value.gpsBuffer + [p]| != |s.trip.value.gpsBuffer|;
  }
}
