/** The mutable recorder, method by method as in Recorder.swift, proved against the functions of RecorderModel. Each
    method appends its effects to those it is given. */
module RecorderMachine {
  import opened Basics
  import opened Commands
  import opened Routes
  import opened RecorderModel

  class Recorder {
    var state: RecorderState
    var routes: seq<Route>
    var plan: GeofencePlan
    const policy: Policy
    const hours: Hours

    function Settings(): Config
      reads this
    {
      Config(routes, plan, policy, hours)
    }

    constructor (routes: seq<Route>, plan: GeofencePlan, state: RecorderState, policy: Policy, hours: Hours)
      ensures this.state == state && Settings() == Config(routes, plan, policy, hours)
    {
      this.routes, this.plan, this.state, this.policy, this.hours := routes, plan, state, policy, hours;
    }

    method Update(routes: seq<Route>, plan: GeofencePlan)
      modifies this
      ensures state == old(state) && Settings() == old(Settings()).(routes := routes, plan := plan)
    {
      this.routes, this.plan := routes, plan;
    }

    method Handle(event: Event) returns (effects: seq<Effect>)
      requires state.Shaped()
      modifies `state
      ensures Out(state, effects) == RecorderModel.Handle(Settings(), old(state), event)
    {
      hide ExitRegions, EnterRegions, UserAnswered, OnTick, OnLocation, CancelTrip;
      effects := [];
      match event
      case RegionExited(identifier, at) => effects := RegionsLeft(plan.RolesFor(identifier), at, effects);
      case RegionEntered(identifier, at) => effects := RegionsEntered(plan.RolesFor(identifier), at, effects);
      case UserCaught(legId, attemptSeq, at, departedAt) =>
        effects := Answered(legId, attemptSeq, if departedAt.Some? then departedAt.value else at, None, effects);
      case UserMissed(legId, attemptSeq, at, departedAt, notes) =>
        effects := Answered(legId, attemptSeq, if departedAt.Some? then departedAt.value else at,
                            Some(if notes.Some? then notes.value else ""), effects);
      case UserCancelledTrip(key, _) =>
        if key.None? || (state.trip.Some? && key.value == state.trip.value.key) {
          effects := Cancelled(effects);
        }
      case Location(sample) => effects := Located(sample, effects);
      case Tick(at) => effects := Ticked(at, effects);
    }

    // ---- regions ---------------------------------------------------------------------------------

    method RegionsLeft(roles: seq<Role>, at: Time, effects: seq<Effect>) returns (r: seq<Effect>)
      requires state.Shaped()
      modifies `state
      ensures state == ExitRegions(Settings(), old(state), roles, at).state
      ensures r == effects + ExitRegions(Settings(), old(state), roles, at).effects
    {
      r := effects;
      if state.trip.None? {
        var start := RouteToStart(hours, routes, roles, at);
        if start.Some? {
          var route := start.value;
          r := Started(route, at, r);
          if route.direction != UsualDirection(hours, at) {
            var key := state.trip.value.key;
            r := r + [ConfirmTripStart(key, route.direction)];
            r := r + [NeedsReview(Note(key, None, UnusualDirection, at))];
          }
        }
        return;
      }
      var trip := state.trip.value;
      if Origin(trip.route.id) in roles && trip.returnedToOriginAt.Some? && !trip.AnyLegStarted() && at > trip.leftHomeAt {
        trip := trip.(returnedToOriginAt := None);
        trip := trip.(leftHomeAt := at);
        trip := trip.(latestRecordedAt := at);
        state := state.(trip := Some(trip));
        r := r + [Enqueue(UpdateTrip(trip.key, TripPatch(Some(at), None)))];
      }
    }

    method RegionsEntered(roles: seq<Role>, at: Time, effects: seq<Effect>) returns (r: seq<Effect>)
      requires state.Shaped()
      modifies `state
      ensures state == EnterRegions(Settings(), old(state), roles, at).state
      ensures r == effects + EnterRegions(Settings(), old(state), roles, at).effects
    {
      hide EnterStops, Arrive, SortStops, StopsOf, StartableAtStop, FirstRoute;
      r := effects;
      if state.trip.None? {
        r := StartedAtFirstStop(roles, at, r);
      }
      if state.trip.None? {
        return;
      }
      var route := state.trip.value.route;
      if Origin(route.id) in roles && !state.trip.value.AnyLegStarted() {
        var returned := if state.trip.value.returnedToOriginAt.Some? then state.trip.value.returnedToOriginAt else Some(at);
        state := state.(trip := Some(state.trip.value.(returnedToOriginAt := returned)));
      }
      var stops := SortStops(StopsOf(route, roles));
      SortedStopsAreStops(StopsOf(route, roles), |route.transitLegs|);
      r := StopsEntered(stops, at, r);
      if Destination(route.id) in roles {
        r := Arrived(at, r);
      }
    }

    /** Stops are entered in leg order, boarding before alighting. */
    method StopsEntered(stops: seq<Stop>, at: Time, effects: seq<Effect>) returns (r: seq<Effect>)
      requires state.trip.Some? && state.Shaped()
      requires forall stop :: stop in stops ==> stop.index < |state.trip.value.legs|
      modifies `state
      ensures state == EnterStops(old(state), stops, at).state
      ensures r == effects + EnterStops(old(state), stops, at).effects
    {
      hide EnterAlightStop, EnterBoardStop;
      r := effects;
      for i := 0 to |stops|
        invariant state == EnterStops(old(state), stops[..i], at).state
        invariant r == effects + EnterStops(old(state), stops[..i], at).effects
      {
        assert stops[..i + 1][..i] == stops[..i];
        assert stops[i] in stops;
        if stops[i].alight {
          r := AlightStopEntered(stops[i].index, at, r);
        } else {
          r := BoardStopEntered(stops[i].index, at, r);
        }
      }
      assert stops[..|stops|] == stops;
    }

    method StartedAtFirstStop(roles: seq<Role>, at: Time, effects: seq<Effect>) returns (r: seq<Effect>)
      requires state.trip.None?
      modifies `state
      ensures state == StartFromFirstStop(Settings(), old(state), roles, at).state
      ensures r == effects + StartFromFirstStop(Settings(), old(state), roles, at).effects
    {
      r := effects;
      var start := FirstRoute(StartableAtStop(Settings(), state, routes, roles, at), UsualDirection(hours, at));
      if start.Some? {
        r := Started(start.value, at, r);
        r := r + [NeedsReview(Note(state.trip.value.key, None, LeftHomeApproximated, at))];
      }
    }

    method Started(route: Route, at: Time, effects: seq<Effect>) returns (r: seq<Effect>)
      modifies `state
      ensures state == StartTrip(old(state), route, at).state
      ensures r == effects + StartTrip(old(state), route, at).effects
    {
      var key := TripKey(route.id, at);
      state := state.(trip := Some(ActiveTrip(key, route, key.leftHomeAt, FreshLegs(route.transitLegs), None,
                                              key.leftHomeAt, [])));
      r := effects + [Enqueue(CreateTrip(key, KstDate(key.leftHomeAt)))];
      r := r + [StartLocationUpdates];
    }

    // ---- legs ------------------------------------------------------------------------------------

    method BoardStopEntered(index: nat, at: Time, effects: seq<Effect>) returns (r: seq<Effect>)
      requires state.trip.Some? && state.Shaped() && index < |state.trip.value.legs|
      modifies `state
      ensures state == EnterBoardStop(old(state), index, at).state
      ensures r == effects + EnterBoardStop(old(state), index, at).effects
    {
      r := effects;
      var trip := state.trip.value;
      if trip.legs[index].phase != NotStarted {
        return;
      }
      if at < trip.leftHomeAt {
        r := r + [NeedsReview(Note(trip.key, Some(trip.legs[index].legId), TimeOutOfOrder, at))];
        return;
      }
      trip, r := EarlierLegsClosed(index, at, trip, r);
      var leg := trip.route.transitLegs[index];
      trip := trip.(legs := trip.legs[index := trip.legs[index].(phase := Waiting)]);
      trip := trip.(returnedToOriginAt := None);
      trip := trip.(latestRecordedAt := MaxTime(trip.latestRecordedAt, at));
      state := state.(trip := Some(trip));
      r := r + [Enqueue(UpsertAttempt(trip.key, BareUpsert(leg.legId, 1).(arrivedAtStopAt := Some(at))))];
      r := r + [PromptBoarding(PromptFor(trip, index))];
    }

    method AlightStopEntered(index: nat, at: Time, effects: seq<Effect>) returns (r: seq<Effect>)
      requires state.trip.Some? && state.Shaped() && index < |state.trip.value.legs|
      modifies `state
      ensures state == EnterAlightStop(old(state), index, at).state
      ensures r == effects + EnterAlightStop(old(state), index, at).effects
    {
      r := effects;
      var trip := state.trip.value;
      if trip.legs[index].phase == Done {
        return;
      }
      var legId := trip.legs[index].legId;
      if at < trip.leftHomeAt {
        r := r + [NeedsReview(Note(trip.key, Some(legId), TimeOutOfOrder, at))];
        return;
      }
      trip, r := EarlierLegsClosed(index, at, trip, r);
      var progress := trip.legs[index];
      var request := BareUpsert(legId, progress.attemptSeq).(alightedAt := Some(at));
      match progress.phase {
        case NotStarted =>
          request := request.(result := Some(Caught));
          r := r + [NeedsReview(Note(trip.key, Some(legId), BoardStopMissed, at))];
        case Waiting =>
          request := request.(result := Some(Caught));
          r := r + [DismissPrompt(legId)];
          r := r + [NeedsReview(Note(trip.key, Some(legId), CaughtInferred, at))];
        case Riding =>
          if progress.departureAt.Some? && at < progress.departureAt.value {
            request := request.(alightedAt := None);
            r := r + [NeedsReview(Note(trip.key, Some(legId), TimeOutOfOrder, at))];
          }
        case Done =>
      }
      progress := progress.(phase := Done);
      trip := trip.(legs := trip.legs[index := progress]);
      trip := trip.(returnedToOriginAt := None);
      if request.alightedAt.Some? {
        trip := trip.(latestRecordedAt := MaxTime(trip.latestRecordedAt, at));
      }
      state := state.(trip := Some(trip));
      if request.alightedAt.Some? || request.result.Some? {
        r := r + [Enqueue(UpsertAttempt(trip.key, request))];
      }
    }

    method EarlierLegsClosed(index: nat, at: Time, before: ActiveTrip, effects: seq<Effect>)
      returns (trip: ActiveTrip, r: seq<Effect>)
      requires index <= |before.legs|
      ensures trip == CloseLegs(before, index, at).0 && r == effects + CloseLegs(before, index, at).1
    {
      trip, r := before, effects;
      for earlier := 0 to index
        invariant trip == CloseLegs(before, earlier, at).0 && r == effects + CloseLegs(before, earlier, at).1
      {
        CloseLegsStep(before, earlier + 1, at);
        var legId := trip.legs[earlier].legId;
        match trip.legs[earlier].phase {
          case NotStarted => r := r + [NeedsReview(Note(trip.key, Some(legId), LegSkipped, at))];
          case Waiting =>
            r := r + [DismissPrompt(legId)];
            r := r + [Enqueue(UpsertAttempt(
                        trip.key, BareUpsert(legId, trip.legs[earlier].attemptSeq).(result := Some(Caught))))];
            r := r + [NeedsReview(Note(trip.key, Some(legId), CaughtInferred, at))];
          case Riding => r := r + [NeedsReview(Note(trip.key, Some(legId), AlightMissed, at))];
          case Done => continue;
        }
        trip := trip.(legs := trip.legs[earlier := trip.legs[earlier].(phase := Done)]);
      }
    }

    // ---- buttons ---------------------------------------------------------------------------------

    method Answered(legId: Option<int>, attemptSeq: Option<int>, departedAt: Time, missed: Option<string>,
                    effects: seq<Effect>) returns (r: seq<Effect>)
      requires state.Shaped()
      modifies `state
      ensures state == UserAnswered(Settings(), old(state), legId, attemptSeq, departedAt, missed).state
      ensures r == effects + UserAnswered(Settings(), old(state), legId, attemptSeq, departedAt, missed).effects
    {
      hide Answer;
      r := effects;
      if state.trip.None? {
        return;
      }
      var trip := state.trip.value;
      var answered := AnsweredLeg(trip.legs);
      if answered.None? {
        return;
      }
      var index := answered.value;
      var progress := trip.legs[index];
      if legId.Some? && legId.value != progress.legId {
        return;
      }
      if attemptSeq.Some? && attemptSeq.value != progress.attemptSeq {
        return;
      }
      r := AnswerRecorded(index, departedAt, missed, r);
    }

    method AnswerRecorded(index: nat, departedAt: Time, missed: Option<string>, effects: seq<Effect>)
      returns (r: seq<Effect>)
      requires state.Shaped() && state.trip.Some? && index < |state.trip.value.legs|
      modifies `state
      ensures state == Answer(policy.maxAttemptSeq, old(state), index, departedAt, missed).state
      ensures r == effects + Answer(policy.maxAttemptSeq, old(state), index, departedAt, missed).effects
    {
      hide CloseLegs, AnswerUpsert, AnsweredProgress, TooEarly, PromptFor, MaxTime;
      r := effects;
      var trip := state.trip.value;
      var progress := trip.legs[index];
      var early := TooEarly(trip, progress, departedAt);
      if progress.phase == NotStarted {
        trip, r := EarlierLegsClosed(index, departedAt, trip, r);
      }
      ghost var closing := if progress.phase == NotStarted then CloseLegs(old(state).trip.value, index, departedAt).1 else [];
      assert r == effects + closing;
      var departure := None;
      if early {
        r := r + [NeedsReview(Note(trip.key, Some(progress.legId), TimeOutOfOrder, departedAt))];
      } else {
        departure := Some(departedAt);
        trip := trip.(latestRecordedAt := MaxTime(trip.latestRecordedAt, departedAt));
      }
      var request := RequestFor(progress, departure, missed);
      r := r + [Enqueue(UpsertAttempt(trip.key, request))];
      ghost var note := if early then [NeedsReview(Note(trip.key, Some(progress.legId), TimeOutOfOrder, departedAt))] else [];
      ghost var sent := closing + note + [Enqueue(UpsertAttempt(trip.key, request))];
      assert r == effects + sent;
      progress, r := Advanced(trip.key, progress, departure, missed.Some?, departedAt, r);
      trip := trip.(legs := trip.legs[index := progress]);
      trip := trip.(returnedToOriginAt := None);
      state := state.(trip := Some(trip));
      if progress.phase == Waiting {
        r := r + [PromptBoarding(PromptFor(trip, index))];
      }
      AnswerJoins(effects, sent, progress, trip, index, departedAt, r);
    }

    lemma AnswerJoins(effects: seq<Effect>, sent: seq<Effect>, p: LegProgress, t: ActiveTrip, i: nat, at: Time,
                      r: seq<Effect>)
      requires t.Shaped() && i < |t.legs|
      requires r == (effects + sent)
                    + (match p.phase
                       case Riding => [DismissPrompt(p.legId)]
                       case Done => [DismissPrompt(p.legId),
                                     NeedsReview(Note(t.key, Some(p.legId), AttemptLimitReached, at))]
                       case _ => [])
                    + if p.phase == Waiting then [PromptBoarding(PromptFor(t, i))] else []
      ensures r == effects + (sent + match p.phase
                                     case Riding => [DismissPrompt(p.legId)]
                                     case Done => [DismissPrompt(p.legId),
                                                   NeedsReview(Note(t.key, Some(p.legId), AttemptLimitReached, at))]
                                     case Waiting => [PromptBoarding(PromptFor(t, i))]
                                     case NotStarted => [])
    {
      hide PromptFor;
    }

    method RequestFor(progress: LegProgress, departure: Option<Time>, missed: Option<string>) returns (request: Upsert)
      ensures request == AnswerUpsert(progress, departure, missed)
    {
      request := BareUpsert(progress.legId, progress.attemptSeq).(
        result := Some(if missed.None? then Caught else Missed));
      if missed.Some? && missed.value != "" {
        request := request.(notes := missed);
      }
      if departure.Some? {
        request := request.(departureAt := departure);
      }
    }

    /** Riding after "caught"; after "missed" the next attempt, or the end of the leg at the limit. */
    method Advanced(key: TripKey, before: LegProgress, departure: Option<Time>, missed: bool, at: Time,
                    effects: seq<Effect>) returns (progress: LegProgress, r: seq<Effect>)
      ensures progress == AnsweredProgress(before, departure, missed, policy.maxAttemptSeq) && progress.legId == before.legId
      ensures r == effects + match progress.phase
                             case Riding => [DismissPrompt(before.legId)]
                             case Done => [DismissPrompt(before.legId),
                                           NeedsReview(Note(key, Some(before.legId), AttemptLimitReached, at))]
                             case _ => []
    {
      progress, r := before, effects;
      if !missed {
        progress := progress.(phase := Riding, departureAt := departure);
        r := r + [DismissPrompt(progress.legId)];
      } else if progress.attemptSeq >= policy.maxAttemptSeq {
        progress := progress.(phase := Done);
        r := r + [DismissPrompt(progress.legId)];
        r := r + [NeedsReview(Note(key, Some(progress.legId), AttemptLimitReached, at))];
      } else {
        progress := progress.(phase := Waiting);
        if departure.Some? {
          var last := if progress.lastMissedDepartureAt.Some? then progress.lastMissedDepartureAt.value else departure.value;
          progress := progress.(lastMissedDepartureAt := Some(MaxTime(last, departure.value)));
        }
        progress := progress.(attemptSeq := progress.attemptSeq + 1);
      }
    }

    // ---- ending ----------------------------------------------------------------------------------

    method Arrived(at: Time, effects: seq<Effect>) returns (r: seq<Effect>)
      requires state.trip.Some?
      modifies `state
      ensures state == Arrive(old(state), at).state && r == effects + Arrive(old(state), at).effects
    {
      var trip := state.trip.value;
      if at < trip.latestRecordedAt {
        r := effects + [NeedsReview(Note(trip.key, None, TimeOutOfOrder, at))];
        r := Ended(at, r);
        return;
      }
      trip, r := EarlierLegsClosed(|trip.legs|, at, trip, effects);
      state := state.(trip := Some(trip));
      r := r + [Enqueue(UpdateTrip(trip.key, TripPatch(None, Some(at))))];
      r := Ended(at, r);
    }

    method PromptsDismissed(legs: seq<LegProgress>, effects: seq<Effect>) returns (r: seq<Effect>)
      ensures r == effects + DismissWaiting(legs)
    {
      r := effects;
      for i := 0 to |legs|
        invariant r == effects + DismissWaiting(legs[..i])
      {
        assert legs[..i + 1][..i] == legs[..i];
        if legs[i].phase == Waiting {
          r := r + [DismissPrompt(legs[i].legId)];
        }
      }
      assert legs[..|legs|] == legs;
    }

    method Ended(at: Time, effects: seq<Effect>) returns (r: seq<Effect>)
      requires state.trip.Some?
      modifies `state
      ensures state == EndTrip(old(state), at).state && r == effects + EndTrip(old(state), at).effects
    {
      var trip := state.trip.value;
      r := Flushed(effects);
      r := PromptsDismissed(trip.legs, r);
      r := r + [StopLocationUpdates];
      r := r + [TripEnded(trip.key)];
      state := state.(lastTripEndedAt := state.lastTripEndedAt[trip.route.id := at]);
      state := state.(trip := None);
    }

    method Cancelled(effects: seq<Effect>) returns (r: seq<Effect>)
      modifies `state
      ensures state == CancelTrip(old(state)).state && r == effects + CancelTrip(old(state)).effects
    {
      r := effects;
      if state.trip.None? {
        return;
      }
      var trip := state.trip.value;
      r := PromptsDismissed(trip.legs, r);
      r := r + [DiscardOutbox(trip.key)];
      r := r + [StopLocationUpdates];
      r := r + [TripEnded(trip.key)];
      state := state.(trip := None);
    }

    method Ticked(now: Time, effects: seq<Effect>) returns (r: seq<Effect>)
      modifies `state
      ensures state == OnTick(Settings(), old(state), now).state
      ensures r == effects + OnTick(Settings(), old(state), now).effects
    {
      r := effects;
      if state.trip.None? {
        return;
      }
      var trip := state.trip.value;
      if trip.returnedToOriginAt.Some? && now - trip.returnedToOriginAt.value >= policy.abandonAfterReturnHome {
        r := r + [NeedsReview(Note(trip.key, None, TripAbandoned, now))];
        r := Ended(now, r);
        return;
      }
      if now - trip.leftHomeAt >= policy.maxTripDuration {
        var closing, r' := EarlierLegsClosed(|trip.legs|, now, trip, r);
        state := state.(trip := Some(closing));
        r := r' + [NeedsReview(Note(closing.key, None, TripTimedOut, now))];
        r := Ended(now, r);
        return;
      }
      if trip.gpsBuffer != [] && now - trip.gpsBuffer[0].recordedAt >= policy.gpsBatchInterval {
        r := Flushed(r);
      }
    }

    // ---- locations -------------------------------------------------------------------------------

    method Located(sample: Sample, effects: seq<Effect>) returns (r: seq<Effect>)
      modifies `state
      ensures state == OnLocation(Settings(), old(state), sample).state
      ensures r == effects + OnLocation(Settings(), old(state), sample).effects
    {
      r := effects;
      if state.trip.None? || !Usable(policy, sample) {
        return;
      }
      var trip := state.trip.value;
      trip := trip.(gpsBuffer := trip.gpsBuffer + [PointOf(sample)]);
      state := state.(trip := Some(trip));
      var first := trip.gpsBuffer[0].recordedAt;
      if |trip.gpsBuffer| >= policy.gpsBatchSize || sample.recordedAt - first >= policy.gpsBatchInterval {
        r := Flushed(r);
      }
    }

    method Flushed(effects: seq<Effect>) returns (r: seq<Effect>)
      modifies `state
      ensures state == FlushGps(old(state)).state && r == effects + FlushGps(old(state)).effects
    {
      r := effects;
      if state.trip.None? || state.trip.value.gpsBuffer == [] {
        return;
      }
      r := r + [Enqueue(UploadGps(Some(state.trip.value.key), state.trip.value.gpsBuffer))];
      state := state.(trip := Some(state.trip.value.(gpsBuffer := [])));
    }
  }
}
