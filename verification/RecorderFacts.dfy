/** What else the recorder keeps over every event: the order of leg phases, every accepted GPS sample, and a
    screen and a location service that agree with the state. */
module RecorderFacts {
  import opened Basics
  import opened Commands
  import opened Routes
  import opened RecorderModel

  // ---- GPS samples -------------------------------------------------------------------------------

  predicate IsUpload(e: Effect) {
    e.Enqueue? && e.command.UploadGps?
  }

  /** All points handed over by the effects, in order. */
  function Uploads(effects: seq<Effect>): seq<GpsPoint> {
    if effects == [] then []
    else
      var last := effects[|effects| - 1];
      Uploads(effects[..|effects| - 1]) + if IsUpload(last) then last.command.points else []
  }

  function BufferOf(s: RecorderState): seq<GpsPoint> {
    if s.trip.Some? then s.trip.value.gpsBuffer else []
  }

  function AcceptedSamples(cfg: Config, s: RecorderState, e: Event): seq<GpsPoint> {
    if e.Location? && s.trip.Some? && Usable(cfg.policy, e.sample) then [PointOf(e.sample)] else []
  }

  predicate Cancels(s: RecorderState, e: Event) {
    e.UserCancelledTrip? && s.trip.Some? && (e.key.None? || e.key.value == s.trip.value.key)
  }

  lemma {:induction false} UploadsConcat(a: seq<Effect>, b: seq<Effect>)
    ensures Uploads(a + b) == Uploads(a) + Uploads(b)
    decreases |b|
  {
    if b == [] {
      assert a + b == a;
    } else {
      UploadsConcat(a, b[..|b| - 1]);
      assert (a + b)[..|a + b| - 1] == a + b[..|b| - 1];
      assert (a + b)[|a + b| - 1] == b[|b| - 1];
    }
  }

  lemma {:induction false} NoUploads(effects: seq<Effect>)
    requires forall e :: e in effects ==> !IsUpload(e)
    ensures Uploads(effects) == []
  {
    if effects != [] {
      NoUploads(effects[..|effects| - 1]);
      assert effects[|effects| - 1] in effects;
    }
  }

  lemma {:induction false} ClosingUploadsNothing(trip: ActiveTrip, n: nat, at: Time)
    requires n <= |trip.legs|
    ensures forall e :: e in CloseLegs(trip, n, at).1 ==> !IsUpload(e)
  {
    if n > 0 {
      ClosingUploadsNothing(trip, n - 1, at);
    }
  }

  lemma {:induction false} DismissingUploadsNothing(legs: seq<LegProgress>)
    ensures forall e :: e in DismissWaiting(legs) ==> !IsUpload(e)
  {
    if legs != [] {
      DismissingUploadsNothing(legs[..|legs| - 1]);
    }
  }

  lemma StopUploadsNothing(s: RecorderState, stop: Stop, at: Time)
    requires s.trip.Some? && s.Shaped() && stop.index < |s.trip.value.legs|
    ensures var o := EnterStop(s, stop, at);
            Uploads(o.effects) == [] && BufferOf(o.state) == BufferOf(s)
  {
    ClosingUploadsNothing(s.trip.value, stop.index, at);
    NoUploads(EnterStop(s, stop, at).effects);
  }

  lemma {:induction false} StopsUploadNothing(s: RecorderState, stops: seq<Stop>, at: Time)
    requires s.trip.Some? && s.Shaped() && forall stop :: stop in stops ==> stop.index < |s.trip.value.legs|
    ensures var o := EnterStops(s, stops, at);
            Uploads(o.effects) == [] && BufferOf(o.state) == BufferOf(s)
    decreases |stops|
  {
    if stops != [] {
      var front := EnterStops(s, stops[..|stops| - 1], at);
      StopsUploadNothing(s, stops[..|stops| - 1], at);
      assert stops[|stops| - 1] in stops;
      StopUploadsNothing(front.state, stops[|stops| - 1], at);
      UploadsConcat(front.effects, EnterStop(front.state, stops[|stops| - 1], at).effects);
    }
  }

  lemma EndingUploadsAll(s: RecorderState, at: Time)
    requires s.trip.Some?
    ensures Uploads(EndTrip(s, at).effects) == BufferOf(s)
  {
    var trip := s.trip.value;
    var flush := FlushGps(s).effects;
    var rest := DismissWaiting(trip.legs) + [StopLocationUpdates, TripEnded(trip.key)];
    DismissingUploadsNothing(trip.legs);
    NoUploads(rest);
    UploadsConcat(flush, rest);
    FlushUploadsAll(s);
    assert EndTrip(s, at).effects == flush + rest;
  }

  lemma FlushUploadsAll(s: RecorderState)
    ensures Uploads(FlushGps(s).effects) == BufferOf(s) && BufferOf(FlushGps(s).state) == []
  {
    if BufferOf(s) != [] {
      var e := FlushGps(s).effects[0];
      assert [e][..0] == [];
      assert Uploads([e]) == [] + e.command.points;
    }
  }

  /** Effects without an upload, and then the end of the trip. */
  lemma EndingAfter(first: seq<Effect>, s: RecorderState, at: Time)
    requires s.trip.Some? && forall e :: e in first ==> !IsUpload(e)
    ensures Uploads(first + EndTrip(s, at).effects) == BufferOf(s)
  {
    NoUploads(first);
    EndingUploadsAll(s, at);
    UploadsConcat(first, EndTrip(s, at).effects);
  }

  lemma ArrivingUploadsAll(s: RecorderState, at: Time)
    requires s.trip.Some?
    ensures Uploads(Arrive(s, at).effects) == BufferOf(s) && Arrive(s, at).state.trip.None?
  {
    var trip := s.trip.value;
    if at < trip.latestRecordedAt {
      EndingAfter([NeedsReview(Note(trip.key, None, TimeOutOfOrder, at))], s, at);
    } else {
      var (closed, closing) := CloseLegs(trip, |trip.legs|, at);
      ClosingUploadsNothing(trip, |trip.legs|, at);
      EndingAfter(closing + [Enqueue(UpdateTrip(trip.key, TripPatch(None, Some(at))))], s.(trip := Some(closed)), at);
    }
  }

  lemma TimingOutUploadsAll(s: RecorderState, now: Time)
    requires s.trip.Some?
    ensures var trip := s.trip.value;
            var (closed, closing) := CloseLegs(trip, |trip.legs|, now);
            Uploads(closing + [NeedsReview(Note(trip.key, None, TripTimedOut, now))]
                    + EndTrip(s.(trip := Some(closed)), now).effects) == BufferOf(s)
  {
    var trip := s.trip.value;
    var (closed, closing) := CloseLegs(trip, |trip.legs|, now);
    ClosingUploadsNothing(trip, |trip.legs|, now);
    EndingAfter(closing + [NeedsReview(Note(trip.key, None, TripTimedOut, now))], s.(trip := Some(closed)), now);
  }

  lemma TickConserves(cfg: Config, s: RecorderState, now: Time)
    ensures var o := OnTick(cfg, s, now);
            Uploads(o.effects) + BufferOf(o.state) == BufferOf(s)
  {
    hide Uploads, CloseLegs, DismissWaiting;
    NoUploads([]);
    if s.trip.Some? {
      EndingAfter([NeedsReview(Note(s.trip.value.key, None, TripAbandoned, now))], s, now);
      TimingOutUploadsAll(s, now);
      FlushUploadsAll(s);
    }
  }

  lemma LocationConserves(cfg: Config, s: RecorderState, sample: Sample)
    ensures var o := OnLocation(cfg, s, sample);
            Uploads(o.effects) + BufferOf(o.state) == BufferOf(s) + AcceptedSamples(cfg, s, Location(sample))
  {
    if s.trip.Some? && Usable(cfg.policy, sample) {
      var trip := s.trip.value;
      FlushUploadsAll(s.(trip := Some(trip.(gpsBuffer := trip.gpsBuffer + [PointOf(sample)]))));
    }
  }

  lemma AnswerConserves(cfg: Config, s: RecorderState, legId: Option<int>, attemptSeq: Option<int>, departedAt: Time,
                        missed: Option<string>)
    requires s.Shaped()
    ensures var o := UserAnswered(cfg, s, legId, attemptSeq, departedAt, missed);
            Uploads(o.effects) == [] && BufferOf(o.state) == BufferOf(s)
  {
    var o := UserAnswered(cfg, s, legId, attemptSeq, departedAt, missed);
    if s.trip.Some? && AnsweredLeg(s.trip.value.legs).Some? {
      ClosingUploadsNothing(s.trip.value, AnsweredLeg(s.trip.value.legs).value, departedAt);
    }
    NoUploads(o.effects);
  }

  lemma EnterConserves(cfg: Config, s: RecorderState, roles: seq<Role>, at: Time)
    requires s.Shaped()
    ensures var o := EnterRegions(cfg, s, roles, at);
            Uploads(o.effects) + BufferOf(o.state) == BufferOf(s)
  {
    hide EnterStops, SortStops, StopsOf, Arrive, Uploads, StartableAtStop, FirstRoute;
    NoUploads([]);
    var begun := if s.trip.None? then StartFromFirstStop(cfg, s, roles, at) else Out(s, []);
    NoUploads(begun.effects);
    if begun.state.trip.Some? {
      var s1 := EnterOrigin(begun.state, roles, at);
      var route := s1.trip.value.route;
      var stops := SortStops(StopsOf(route, roles));
      SortedStopsAreStops(StopsOf(route, roles), |route.transitLegs|);
      var passed := EnterStops(s1, stops, at);
      StopsUploadNothing(s1, stops, at);
      UploadsConcat(begun.effects, passed.effects);
      if Destination(route.id) in roles {
        ArrivingUploadsAll(passed.state, at);
        UploadsConcat(begun.effects + passed.effects, Arrive(passed.state, at).effects);
      } else {
        UploadsConcat(begun.effects + passed.effects, []);
      }
    }
  }

  /** No accepted sample is lost, repeated or reordered: what was buffered plus what this event accepted is what
      was handed over plus what is still buffered. A cancelled trip hands nothing over. */
  lemma GpsConserved(cfg: Config, s: RecorderState, e: Event)
    requires s.Shaped()
    ensures var o := Handle(cfg, s, e);
            if Cancels(s, e) then Uploads(o.effects) == [] && BufferOf(o.state) == []
            else Uploads(o.effects) + BufferOf(o.state) == BufferOf(s) + AcceptedSamples(cfg, s, e)
  {
    hide EnterRegions, UserAnswered, OnTick, OnLocation, Uploads, RouteToStart;
    match e
    case RegionExited(identifier, at) =>
      NoUploads(Handle(cfg, s, e).effects);
    case RegionEntered(identifier, at) => EnterConserves(cfg, s, cfg.plan.RolesFor(identifier), at);
    case UserCaught(legId, attemptSeq, at, departedAt) =>
      AnswerConserves(cfg, s, legId, attemptSeq, if departedAt.Some? then departedAt.value else at, None);
    case UserMissed(legId, attemptSeq, at, departedAt, notes) =>
      AnswerConserves(cfg, s, legId, attemptSeq, if departedAt.Some? then departedAt.value else at,
                      Some(if notes.Some? then notes.value else ""));
    case UserCancelledTrip(key, _) =>
      if Cancels(s, e) {
        DismissingUploadsNothing(s.trip.value.legs);
      }
      NoUploads(Handle(cfg, s, e).effects);
    case Location(sample) => LocationConserves(cfg, s, sample);
    case Tick(at) => TickConserves(cfg, s, at);
  }

  /** The buffer never reaches the batch size. */
  lemma BufferStaysBelowBatch(cfg: Config, s: RecorderState, e: Event)
    requires s.Shaped() && cfg.policy.gpsBatchSize >= 1 && |BufferOf(s)| < cfg.policy.gpsBatchSize
    ensures |BufferOf(Handle(cfg, s, e).state)| < cfg.policy.gpsBatchSize
  {
    if !e.Location? {
      GpsConserved(cfg, s, e);
    }
  }

  // ---- phases ------------------------------------------------------------------------------------

  /** Finished legs, then at most one that waits or rides, then legs not started. */
  predicate PhasesInOrder(legs: seq<LegProgress>) {
    && (forall i, j :: 0 <= i < j < |legs| && legs[j].phase != NotStarted ==> legs[i].phase == Done)
    && (forall i :: 0 <= i < |legs| && legs[i].phase == NotStarted ==> legs[i].attemptSeq == 1)
  }

  predicate InOrder(s: RecorderState) {
    s.trip.Some? ==> PhasesInOrder(s.trip.value.legs)
  }

  lemma {:induction false} StopsKeepOrder(s: RecorderState, stops: seq<Stop>, at: Time)
    requires s.trip.Some? && s.Shaped() && forall stop :: stop in stops ==> stop.index < |s.trip.value.legs|
    requires InOrder(s)
    ensures InOrder(EnterStops(s, stops, at).state)
    decreases |stops|
  {
    if stops != [] {
      StopsKeepOrder(s, stops[..|stops| - 1], at);
      var front := EnterStops(s, stops[..|stops| - 1], at);
      var stop := stops[|stops| - 1];
      assert stop in stops;
      StopKeepsOrder(front.state, stop, at);
    }
  }

  lemma StopKeepsOrder(s: RecorderState, stop: Stop, at: Time)
    requires s.trip.Some? && s.Shaped() && stop.index < |s.trip.value.legs| && InOrder(s)
    ensures InOrder(EnterStop(s, stop, at).state)
  {
  }

  lemma EnterKeepsOrder(cfg: Config, s: RecorderState, roles: seq<Role>, at: Time)
    requires s.Shaped() && InOrder(s)
    ensures InOrder(EnterRegions(cfg, s, roles, at).state)
  {
    hide EnterStops, SortStops, StopsOf, StartableAtStop, FirstRoute;
    var begun := if s.trip.None? then StartFromFirstStop(cfg, s, roles, at) else Out(s, []);
    if begun.state.trip.Some? {
      var s1 := EnterOrigin(begun.state, roles, at);
      var route := s1.trip.value.route;
      SortedStopsAreStops(StopsOf(route, roles), |route.transitLegs|);
      StopsKeepOrder(s1, SortStops(StopsOf(route, roles)), at);
    }
  }

  lemma AnswerKeepsOrder(cfg: Config, s: RecorderState, legId: Option<int>, attemptSeq: Option<int>, departedAt: Time,
                         missed: Option<string>)
    requires s.Shaped() && InOrder(s)
    ensures InOrder(UserAnswered(cfg, s, legId, attemptSeq, departedAt, missed).state)
  {
    hide CloseLegs, AnswerUpsert, TooEarly, PromptFor;
  }

  /** Over every event, finished legs come first, then at most one that waits or rides, then legs not started. */
  lemma HandleKeepsOrder(cfg: Config, s: RecorderState, e: Event)
    requires s.Shaped() && InOrder(s)
    ensures InOrder(Handle(cfg, s, e).state)
  {
    hide EnterRegions, UserAnswered;
    match e
    case RegionEntered(identifier, at) => EnterKeepsOrder(cfg, s, cfg.plan.RolesFor(identifier), at);
    case UserCaught(legId, attemptSeq, at, departedAt) =>
      AnswerKeepsOrder(cfg, s, legId, attemptSeq, if departedAt.Some? then departedAt.value else at, None);
    case UserMissed(legId, attemptSeq, at, departedAt, notes) =>
      AnswerKeepsOrder(cfg, s, legId, attemptSeq, if departedAt.Some? then departedAt.value else at,
                       Some(if notes.Some? then notes.value else ""));
    case _ =>
  }

  // ---- buttons -----------------------------------------------------------------------------------

  /** The leg that a button can be about: it waits, or it comes next and nobody waits or rides. */
  predicate Answerable(legs: seq<LegProgress>, i: nat)
    requires i < |legs|
  {
    legs[i].phase == Waiting || (legs[i].phase == NotStarted && forall j :: 0 <= j < i ==> legs[j].phase == Done)
  }

  lemma AnswerableIsAnswered(legs: seq<LegProgress>, i: nat)
    requires i < |legs| && PhasesInOrder(legs)
    ensures Answerable(legs, i) <==> AnsweredLeg(legs) == Some(i)
  {
  }

  /** A button for any other leg, or for another attempt number than the leg's, does nothing. */
  lemma StaleButtonDoesNothing(cfg: Config, s: RecorderState, i: nat, attemptSeq: int, at: Time,
                               departedAt: Option<Time>, notes: Option<string>)
    requires s.Shaped() && s.trip.Some? && i < |s.trip.value.legs| && s.trip.value.route.Distinct()
    requires !(Answerable(s.trip.value.legs, i) && s.trip.value.legs[i].attemptSeq == attemptSeq)
    requires InOrder(s)
    ensures var legId := s.trip.value.legs[i].legId;
            && Handle(cfg, s, UserCaught(Some(legId), Some(attemptSeq), at, departedAt)) == Out(s, [])
            && Handle(cfg, s, UserMissed(Some(legId), Some(attemptSeq), at, departedAt, notes)) == Out(s, [])
  {
    var trip := s.trip.value;
    AnswerableIsAnswered(trip.legs, i);
    hide AnsweredLeg, Answer, PhasesInOrder, Answerable;
    var answered := AnsweredLeg(trip.legs);
    if answered.Some? && answered.value != i {
      var j := answered.value;
      assert trip.route.transitLegs[i].legId != trip.route.transitLegs[j].legId;
    }
  }

  ghost predicate Answers(effects: seq<Effect>, key: TripKey, legId: int, attemptSeq: int, result: BoardingResult) {
    exists u :: Enqueue(UpsertAttempt(key, u)) in effects
                && u.legId == legId && u.Seq() == attemptSeq && u.result == Some(result)
  }

  /** The button of an answerable leg and its current number records its answer. */
  lemma LiveButtonRecords(cfg: Config, s: RecorderState, i: nat, at: Time, departedAt: Option<Time>, notes: Option<string>)
    requires s.Shaped() && s.trip.Some? && i < |s.trip.value.legs| && InOrder(s)
    requires Answerable(s.trip.value.legs, i)
    ensures var trip := s.trip.value;
            var p := trip.legs[i];
            && Answers(Handle(cfg, s, UserCaught(Some(p.legId), Some(p.attemptSeq), at, departedAt)).effects,
                       trip.key, p.legId, p.attemptSeq, Caught)
            && Answers(Handle(cfg, s, UserMissed(Some(p.legId), Some(p.attemptSeq), at, departedAt, notes)).effects,
                       trip.key, p.legId, p.attemptSeq, Missed)
  {
    hide UserAnswered, Answers;
    var left := if departedAt.Some? then departedAt.value else at;
    AnswerRecords(cfg, s, i, left, None);
    AnswerRecords(cfg, s, i, left, Some(if notes.Some? then notes.value else ""));
  }

  lemma AnswerRecords(cfg: Config, s: RecorderState, i: nat, departedAt: Time, missed: Option<string>)
    requires s.Shaped() && s.trip.Some? && i < |s.trip.value.legs| && InOrder(s)
    requires Answerable(s.trip.value.legs, i)
    ensures var trip := s.trip.value;
            var p := trip.legs[i];
            Answers(UserAnswered(cfg, s, Some(p.legId), Some(p.attemptSeq), departedAt, missed).effects,
                    trip.key, p.legId, p.attemptSeq, if missed.None? then Caught else Missed)
  {
    var trip := s.trip.value;
    var p := trip.legs[i];
    AnswerableIsAnswered(trip.legs, i);
    var u := AnswerUpsert(p, if TooEarly(trip, p, departedAt) then None else Some(departedAt), missed);
    hide AnsweredLeg, CloseLegs, AnswerUpsert, TooEarly, PromptFor, AnsweredProgress;
    assert Enqueue(UpsertAttempt(trip.key, u)) in Answer(cfg.policy.maxAttemptSeq, s, i, departedAt, missed).effects;
    AnswerUpsertIs(p, if TooEarly(trip, p, departedAt) then None else Some(departedAt), missed);
  }

  lemma AnswerUpsertIs(p: LegProgress, departure: Option<Time>, missed: Option<string>)
    ensures var u := AnswerUpsert(p, departure, missed);
            u.legId == p.legId && u.Seq() == p.attemptSeq && u.result == Some(if missed.None? then Caught else Missed)
  {
  }

  // ---- what the user sees ------------------------------------------------------------------------

  /** The boarding prompts on screen by leg, and whether location updates run. */
  datatype Screen = Screen(prompts: map<int, Prompt>, tracking: bool)

  function Show(screen: Screen, e: Effect): Screen {
    match e
    case PromptBoarding(p) => screen.(prompts := screen.prompts[p.legId := p])
    case DismissPrompt(legId) => screen.(prompts := screen.prompts - {legId})
    case StartLocationUpdates => screen.(tracking := true)
    case StopLocationUpdates => screen.(tracking := false)
    case _ => screen
  }

  function ShowAll(screen: Screen, effects: seq<Effect>): Screen {
    if effects == [] then screen else Show(ShowAll(screen, effects[..|effects| - 1]), effects[|effects| - 1])
  }

  lemma {:induction false} ShowConcat(screen: Screen, a: seq<Effect>, b: seq<Effect>)
    ensures ShowAll(screen, a + b) == ShowAll(ShowAll(screen, a), b)
    decreases |b|
  {
    if b == [] {
      assert a + b == a;
    } else {
      ShowConcat(screen, a, b[..|b| - 1]);
      assert (a + b)[..|a + b| - 1] == a + b[..|b| - 1];
    }
  }

  predicate Unseen(e: Effect) {
    !e.PromptBoarding? && !e.DismissPrompt? && !e.StartLocationUpdates? && !e.StopLocationUpdates?
  }

  lemma {:induction false} ShowUnseen(screen: Screen, effects: seq<Effect>)
    requires forall e :: e in effects ==> Unseen(e)
    ensures ShowAll(screen, effects) == screen
  {
    if effects != [] {
      ShowUnseen(screen, effects[..|effects| - 1]);
      assert effects[|effects| - 1] in effects;
    }
  }

  lemma ShowOne(screen: Screen, effects: seq<Effect>, e: Effect)
    ensures ShowAll(screen, effects + [e]) == Show(ShowAll(screen, effects), e)
  {
    ShowConcat(screen, effects, [e]);
    assert [e][..0] == [];
  }

  /** The prompts are exactly the waiting legs with their current numbers. */
  ghost predicate PromptsMatch(prompts: map<int, Prompt>, trip: ActiveTrip)
    requires trip.Shaped()
  {
    && (forall i :: 0 <= i < |trip.legs| && trip.legs[i].phase == Waiting ==>
          trip.legs[i].legId in prompts && prompts[trip.legs[i].legId] == PromptFor(trip, i))
    && (forall legId :: legId in prompts ==>
          exists i :: 0 <= i < |trip.legs| && trip.legs[i].legId == legId && trip.legs[i].phase == Waiting)
  }

  ghost predicate Shows(screen: Screen, s: RecorderState)
    requires s.Shaped()
  {
    && (screen.tracking <==> s.trip.Some?)
    && (if s.trip.None? then screen.prompts == map[]
        else s.trip.value.route.Distinct() && PromptsMatch(screen.prompts, s.trip.value))
  }

  /** Changing one leg and its prompt together. */
  lemma PromptsStep(prompts: map<int, Prompt>, prompts': map<int, Prompt>, trip: ActiveTrip, trip': ActiveTrip, i: nat)
    requires trip.Shaped() && trip'.Shaped() && trip.route.Distinct() && trip'.route == trip.route && trip'.key == trip.key
    requires PromptsMatch(prompts, trip) && i < |trip.legs|
    requires forall j :: 0 <= j < |trip.legs| && j != i ==> trip'.legs[j] == trip.legs[j]
    requires var legId := trip.legs[i].legId;
             prompts' == if trip'.legs[i].phase == Waiting then prompts[legId := PromptFor(trip', i)] else prompts - {legId}
    ensures PromptsMatch(prompts', trip')
  {
    forall j | 0 <= j < |trip.legs| && j != i ensures trip.legs[j].legId != trip.legs[i].legId {
      assert trip.route.transitLegs[j].legId != trip.route.transitLegs[i].legId;
    }
    forall legId | legId in prompts'
      ensures exists j :: 0 <= j < |trip'.legs| && trip'.legs[j].legId == legId && trip'.legs[j].phase == Waiting
    {
      if legId == trip.legs[i].legId {
        assert trip'.legs[i].phase == Waiting;
      } else {
        var j :| 0 <= j < |trip.legs| && trip.legs[j].legId == legId && trip.legs[j].phase == Waiting;
        assert trip'.legs[j] == trip.legs[j];
      }
    }
  }

  /** Changing a leg that neither waits nor will wait. */
  lemma PromptsKept(prompts: map<int, Prompt>, trip: ActiveTrip, trip': ActiveTrip, i: nat)
    requires trip.Shaped() && trip'.Shaped() && trip.route.Distinct() && trip'.route == trip.route && trip'.key == trip.key
    requires PromptsMatch(prompts, trip) && i < |trip.legs|
    requires forall j :: 0 <= j < |trip.legs| && j != i ==> trip'.legs[j] == trip.legs[j]
    requires trip.legs[i].phase != Waiting && trip'.legs[i].phase != Waiting
    ensures PromptsMatch(prompts, trip')
  {
    forall j | 0 <= j < |trip.legs| && trip.legs[j].legId == trip.legs[i].legId ensures j == i {
      assert trip.route.transitLegs[j].legId == trip.route.transitLegs[i].legId;
    }
    assert prompts - {trip.legs[i].legId} == prompts;
    PromptsStep(prompts, prompts, trip, trip', i);
  }

  /** A prompt put up or taken down among unseen effects, together with its leg. */
  lemma OneLegShows(screen: Screen, before: seq<Effect>, trip: ActiveTrip, trip': ActiveTrip, i: nat,
                    pre: seq<Effect>, e: Effect, post: seq<Effect>, all: seq<Effect>)
    requires trip.Shaped() && trip'.Shaped() && trip.route.Distinct() && trip'.route == trip.route && trip'.key == trip.key
    requires i < |trip.legs| && forall j :: 0 <= j < |trip.legs| && j != i ==> trip'.legs[j] == trip.legs[j]
    requires PromptsMatch(ShowAll(screen, before).prompts, trip)
    requires all == before + (pre + [e] + post)
    requires (forall x :: x in pre ==> Unseen(x)) && (forall x :: x in post ==> Unseen(x))
    requires e == if trip'.legs[i].phase == Waiting then PromptBoarding(PromptFor(trip', i)) else DismissPrompt(trip.legs[i].legId)
    ensures PromptsMatch(ShowAll(screen, all).prompts, trip')
    ensures ShowAll(screen, all).tracking == ShowAll(screen, before).tracking
  {
    var mid := ShowAll(screen, before);
    ShowAmid(mid, pre, e, post);
    ShowConcat(screen, before, pre + [e] + post);
    PromptsStep(mid.prompts, Show(mid, e).prompts, trip, trip', i);
  }

  /** Unseen effects, and a leg that neither waited nor waits. */
  lemma NoLegShows(screen: Screen, before: seq<Effect>, trip: ActiveTrip, trip': ActiveTrip, i: nat, rest: seq<Effect>,
                   all: seq<Effect>)
    requires trip.Shaped() && trip'.Shaped() && trip.route.Distinct() && trip'.route == trip.route && trip'.key == trip.key
    requires i < |trip.legs| && forall j :: 0 <= j < |trip.legs| && j != i ==> trip'.legs[j] == trip.legs[j]
    requires PromptsMatch(ShowAll(screen, before).prompts, trip)
    requires all == before + rest && forall x :: x in rest ==> Unseen(x)
    requires trip.legs[i].phase != Waiting && trip'.legs[i].phase != Waiting
    ensures PromptsMatch(ShowAll(screen, all).prompts, trip')
    ensures ShowAll(screen, all).tracking == ShowAll(screen, before).tracking
  {
    var mid := ShowAll(screen, before);
    ShowUnseen(mid, rest);
    ShowConcat(screen, before, rest);
    PromptsKept(mid.prompts, trip, trip', i);
  }

  /** Effects of which only the one in the middle is seen. */
  lemma ShowAmid(screen: Screen, pre: seq<Effect>, e: Effect, post: seq<Effect>)
    requires (forall x :: x in pre ==> Unseen(x)) && (forall x :: x in post ==> Unseen(x))
    ensures ShowAll(screen, pre + [e] + post) == Show(screen, e)
  {
    ShowUnseen(screen, pre);
    ShowOne(screen, pre, e);
    ShowUnseen(Show(screen, e), post);
    ShowConcat(screen, pre + [e], post);
  }

  lemma CloseOneShows(screen: Screen, before: seq<Effect>, front: ActiveTrip, closed: ActiveTrip, i: nat, at: Time,
                      all: seq<Effect>)
    requires front.Shaped() && closed.Shaped() && front.route.Distinct() && i < |front.legs|
    requires closed == front.(legs := front.legs[i := front.legs[i].(phase := Done)])
    requires all == before + ClosingEffects(front.key, front.legs[i], at)
    requires PromptsMatch(ShowAll(screen, before).prompts, front)
    ensures PromptsMatch(ShowAll(screen, all).prompts, closed)
    ensures ShowAll(screen, all).tracking == ShowAll(screen, before).tracking
  {
    var p := front.legs[i];
    var effects := ClosingEffects(front.key, p, at);
    if p.phase == Waiting {
      assert effects == [] + [effects[0]] + effects[1..];
      OneLegShows(screen, before, front, closed, i, [], effects[0], effects[1..], all);
    } else {
      NoLegShows(screen, before, front, closed, i, effects, all);
    }
  }

  lemma {:induction false} CloseLegsShows(screen: Screen, trip: ActiveTrip, n: nat, at: Time)
    requires trip.Shaped() && trip.route.Distinct() && n <= |trip.legs| && PromptsMatch(screen.prompts, trip)
    ensures CloseLegs(trip, n, at).0.Shaped()
    ensures PromptsMatch(ShowAll(screen, CloseLegs(trip, n, at).1).prompts, CloseLegs(trip, n, at).0)
    ensures ShowAll(screen, CloseLegs(trip, n, at).1).tracking == screen.tracking
  {
    assert ShowAll(screen, []) == screen && CloseLegs(trip, 0, at) == (trip, []);
    hide CloseLegs, ShowAll, PromptsMatch, ClosingEffects;
    if n == 0 {
    } else {
      CloseLegsShows(screen, trip, n - 1, at);
      NextLegShows(screen, trip, n, at);
    }
  }

  lemma NextLegShows(screen: Screen, trip: ActiveTrip, n: nat, at: Time)
    requires trip.Shaped() && trip.route.Distinct() && 0 < n <= |trip.legs|
    requires CloseLegs(trip, n - 1, at).0.Shaped()
    requires PromptsMatch(ShowAll(screen, CloseLegs(trip, n - 1, at).1).prompts, CloseLegs(trip, n - 1, at).0)
    requires ShowAll(screen, CloseLegs(trip, n - 1, at).1).tracking == screen.tracking
    ensures CloseLegs(trip, n, at).0.Shaped()
    ensures PromptsMatch(ShowAll(screen, CloseLegs(trip, n, at).1).prompts, CloseLegs(trip, n, at).0)
    ensures ShowAll(screen, CloseLegs(trip, n, at).1).tracking == screen.tracking
  {
    hide CloseLegs, ShowAll, PromptsMatch, ClosingEffects;
    CloseLegsStep(trip, n, at);
    var front := CloseLegs(trip, n - 1, at);
    CloseOneShows(screen, front.1, front.0, CloseLegs(trip, n, at).0, n - 1, at, CloseLegs(trip, n, at).1);
  }

  lemma EnterBoardShows(screen: Screen, s: RecorderState, i: nat, at: Time)
    requires s.trip.Some? && s.Shaped() && i < |s.trip.value.legs| && Shows(screen, s)
    ensures Shows(ShowAll(screen, EnterBoardStop(s, i, at).effects), EnterBoardStop(s, i, at).state)
  {
    var trip := s.trip.value;
    var o := EnterBoardStop(s, i, at);
    if trip.legs[i].phase == NotStarted && trip.leftHomeAt <= at {
      var closed := CloseLegs(trip, i, at);
      CloseLegsShows(screen, trip, i, at);
      var pre := [o.effects[|closed.1|]];
      var e := PromptBoarding(PromptFor(o.state.trip.value, i));
      assert o.effects == closed.1 + (pre + [e] + []);
      OneLegShows(screen, closed.1, closed.0, o.state.trip.value, i, pre, e, [], o.effects);
    } else {
      ShowUnseen(screen, o.effects);
    }
  }

  /** What an alighting does to the screen: at most the prompt of its own leg goes. */
  lemma AlightSeen(s: RecorderState, i: nat, at: Time) returns (rest: seq<Effect>)
    requires s.trip.Some? && s.Shaped() && i < |s.trip.value.legs|
    requires s.trip.value.legs[i].phase != Done && s.trip.value.leftHomeAt <= at
    ensures var (trip, p) := (s.trip.value, s.trip.value.legs[i]);
            var (closed, closing) := CloseLegs(trip, i, at);
            && EnterAlightStop(s, i, at).effects == closing + rest
            && (if p.phase == Waiting
                then rest != [] && rest[0] == DismissPrompt(p.legId) && forall x :: x in rest[1..] ==> Unseen(x)
                else forall x :: x in rest ==> Unseen(x))
  {
    rest := EnterAlightStop(s, i, at).effects[|CloseLegs(s.trip.value, i, at).1|..];
  }

  lemma AlightLegs(s: RecorderState, i: nat, at: Time)
    requires s.trip.Some? && s.Shaped() && i < |s.trip.value.legs|
    requires s.trip.value.legs[i].phase != Done && s.trip.value.leftHomeAt <= at
    ensures var closed := CloseLegs(s.trip.value, i, at).0;
            var o := EnterAlightStop(s, i, at).state;
            && o.trip.Some? && o.Shaped() && SameButLeg(closed, o.trip.value, i)
            && closed.Shaped() && closed.legs[i] == s.trip.value.legs[i] && o.trip.value.legs[i].phase == Done
            && closed.route == s.trip.value.route
  {
  }

  predicate SameButLeg(trip: ActiveTrip, trip': ActiveTrip, i: nat) {
    && trip'.route == trip.route && trip'.key == trip.key
    && i < |trip.legs| == |trip'.legs|
    && forall j :: 0 <= j < |trip.legs| && j != i ==> trip'.legs[j] == trip.legs[j]
  }

  lemma EnterAlightShows(screen: Screen, s: RecorderState, i: nat, at: Time)
    requires s.trip.Some? && s.Shaped() && i < |s.trip.value.legs| && Shows(screen, s)
    ensures Shows(ShowAll(screen, EnterAlightStop(s, i, at).effects), EnterAlightStop(s, i, at).state)
  {
    var trip := s.trip.value;
    if trip.legs[i].phase != Done && trip.leftHomeAt <= at {
      var closed := CloseLegs(trip, i, at);
      CloseLegsShows(screen, trip, i, at);
      var rest := AlightSeen(s, i, at);
      AlightLegs(s, i, at);
      OwnPromptGoes(screen, closed.1, closed.0, EnterAlightStop(s, i, at).state.trip.value, i, rest);
    } else {
      ShowUnseen(screen, EnterAlightStop(s, i, at).effects);
    }
  }

  /** A leg that will not wait, and its prompt if it has one. */
  lemma OwnPromptGoes(screen: Screen, before: seq<Effect>, trip: ActiveTrip, trip': ActiveTrip, i: nat, rest: seq<Effect>)
    requires trip.Shaped() && trip'.Shaped() && trip.route.Distinct() && SameButLeg(trip, trip', i)
    requires trip'.legs[i].phase != Waiting && PromptsMatch(ShowAll(screen, before).prompts, trip)
    requires if trip.legs[i].phase == Waiting
             then rest != [] && rest[0] == DismissPrompt(trip.legs[i].legId) && forall x :: x in rest[1..] ==> Unseen(x)
             else forall x :: x in rest ==> Unseen(x)
    ensures PromptsMatch(ShowAll(screen, before + rest).prompts, trip')
    ensures ShowAll(screen, before + rest).tracking == ShowAll(screen, before).tracking
  {
    if trip.legs[i].phase == Waiting {
      assert rest == [] + [rest[0]] + rest[1..];
      OneLegShows(screen, before, trip, trip', i, [], rest[0], rest[1..], before + rest);
    } else {
      NoLegShows(screen, before, trip, trip', i, rest, before + rest);
    }
  }

  lemma {:induction false} StopsShow(screen: Screen, s: RecorderState, stops: seq<Stop>, at: Time)
    requires s.trip.Some? && s.Shaped() && forall stop :: stop in stops ==> stop.index < |s.trip.value.legs|
    requires Shows(screen, s)
    ensures Shows(ShowAll(screen, EnterStops(s, stops, at).effects), EnterStops(s, stops, at).state)
    decreases |stops|
  {
    if stops != [] {
      var stop := stops[|stops| - 1];
      var front := EnterStops(s, stops[..|stops| - 1], at);
      StopsShow(screen, s, stops[..|stops| - 1], at);
      assert stop in stops;
      var mid := ShowAll(screen, front.effects);
      if stop.alight {
        EnterAlightShows(mid, front.state, stop.index, at);
      } else {
        EnterBoardShows(mid, front.state, stop.index, at);
      }
      ShowConcat(screen, front.effects, EnterStop(front.state, stop, at).effects);
    }
  }

  function WaitingIds(legs: seq<LegProgress>): set<int> {
    set i | 0 <= i < |legs| && legs[i].phase == Waiting :: legs[i].legId
  }

  lemma WaitingIdsLast(legs: seq<LegProgress>)
    requires legs != []
    ensures var p := legs[|legs| - 1];
            WaitingIds(legs) == WaitingIds(legs[..|legs| - 1]) + if p.phase == Waiting then {p.legId} else {}
  {
    var front := legs[..|legs| - 1];
    forall id | id in WaitingIds(front) ensures id in WaitingIds(legs) {
      var i :| 0 <= i < |front| && front[i].phase == Waiting && front[i].legId == id;
      assert legs[i] == front[i];
    }
    forall i | 0 <= i < |front| && legs[i].phase == Waiting ensures legs[i].legId in WaitingIds(front) {
      assert front[i] == legs[i];
    }
  }

  /** Taking away the prompts of the waiting legs, one by one. */
  lemma {:induction false} DismissingShows(screen: Screen, legs: seq<LegProgress>)
    ensures ShowAll(screen, DismissWaiting(legs)) == screen.(prompts := screen.prompts - WaitingIds(legs))
  {
    if legs == [] {
      assert screen.prompts - WaitingIds(legs) == screen.prompts;
    } else {
      var front := legs[..|legs| - 1];
      var p := legs[|legs| - 1];
      DismissingShows(screen, front);
      WaitingIdsLast(legs);
      hide WaitingIds, ShowAll;
      if p.phase == Waiting {
        ShowOne(screen, DismissWaiting(front), DismissPrompt(p.legId));
        TakenAway(screen.prompts, WaitingIds(front), p.legId);
      } else {
        assert DismissWaiting(legs) == DismissWaiting(front);
      }
    }
  }

  lemma TakenAway(prompts: map<int, Prompt>, ids: set<int>, id: int)
    ensures prompts - ids - {id} == prompts - (ids + {id})
  {
  }

  lemma EndingShows(screen: Screen, s: RecorderState, middle: seq<Effect>, effects: seq<Effect>)
    requires s.trip.Some? && s.Shaped() && PromptsMatch(screen.prompts, s.trip.value)
    requires forall e :: e in middle ==> Unseen(e)
    requires effects == DismissWaiting(s.trip.value.legs) + middle + [StopLocationUpdates, TripEnded(s.trip.value.key)]
    ensures ShowAll(screen, effects) == Screen(map[], false)
  {
    var trip := s.trip.value;
    var dismiss := DismissWaiting(trip.legs);
    DismissingShows(screen, trip.legs);
    var mid := ShowAll(screen, dismiss);
    forall legId | legId in screen.prompts ensures legId in WaitingIds(trip.legs) {
      var i :| 0 <= i < |trip.legs| && trip.legs[i].legId == legId && trip.legs[i].phase == Waiting;
    }
    assert mid.prompts == map[];
    ShowAmid(mid, middle, StopLocationUpdates, [TripEnded(trip.key)]);
    ShowConcat(screen, dismiss, middle + [StopLocationUpdates] + [TripEnded(trip.key)]);
    assert effects == dismiss + (middle + [StopLocationUpdates] + [TripEnded(trip.key)]);
  }

  lemma EndTripShows(screen: Screen, s: RecorderState, at: Time)
    requires s.trip.Some? && s.Shaped() && PromptsMatch(screen.prompts, s.trip.value)
    ensures ShowAll(screen, EndTrip(s, at).effects) == Screen(map[], false)
  {
    var flush := FlushGps(s).effects;
    var rest := DismissWaiting(s.trip.value.legs) + [] + [StopLocationUpdates, TripEnded(s.trip.value.key)];
    ShowUnseen(screen, flush);
    EndingShows(screen, s, [], rest);
    ShowConcat(screen, flush, rest);
    assert EndTrip(s, at).effects == flush + rest;
  }

  /** Closing every leg, one unseen effect, and the end of the trip. */
  lemma CloseAndEndShows(screen: Screen, s: RecorderState, at: Time, e: Effect)
    requires s.trip.Some? && s.Shaped() && Shows(screen, s) && Unseen(e)
    ensures var closed := CloseLegs(s.trip.value, |s.trip.value.legs|, at);
            ShowAll(screen, closed.1 + [e] + EndTrip(s.(trip := Some(closed.0)), at).effects) == Screen(map[], false)
  {
    var trip := s.trip.value;
    var closed := CloseLegs(trip, |trip.legs|, at);
    CloseLegsShows(screen, trip, |trip.legs|, at);
    ShowOne(screen, closed.1, e);
    EndTripShows(ShowAll(screen, closed.1 + [e]), s.(trip := Some(closed.0)), at);
    ShowConcat(screen, closed.1 + [e], EndTrip(s.(trip := Some(closed.0)), at).effects);
  }

  lemma NoteAndEndShows(screen: Screen, s: RecorderState, at: Time, e: Effect)
    requires s.trip.Some? && s.Shaped() && Shows(screen, s) && Unseen(e)
    ensures ShowAll(screen, [e] + EndTrip(s, at).effects) == Screen(map[], false)
  {
    ShowUnseen(screen, [e]);
    EndTripShows(screen, s, at);
    ShowConcat(screen, [e], EndTrip(s, at).effects);
  }

  lemma ArriveShows(screen: Screen, s: RecorderState, at: Time)
    requires s.trip.Some? && s.Shaped() && Shows(screen, s)
    ensures ShowAll(screen, Arrive(s, at).effects) == Screen(map[], false) && Arrive(s, at).state.trip.None?
  {
    var trip := s.trip.value;
    if at < trip.latestRecordedAt {
      NoteAndEndShows(screen, s, at, NeedsReview(Note(trip.key, None, TimeOutOfOrder, at)));
    } else {
      CloseAndEndShows(screen, s, at, Enqueue(UpdateTrip(trip.key, TripPatch(None, Some(at)))));
    }
  }

  lemma TickShows(screen: Screen, cfg: Config, s: RecorderState, now: Time)
    requires s.Shaped() && Shows(screen, s)
    ensures Shows(ShowAll(screen, OnTick(cfg, s, now).effects), OnTick(cfg, s, now).state)
  {
    hide ShowAll, CloseLegs, DismissWaiting;
    if s.trip.Some? {
      NoteAndEndShows(screen, s, now, NeedsReview(Note(s.trip.value.key, None, TripAbandoned, now)));
      CloseAndEndShows(screen, s, now, NeedsReview(Note(s.trip.value.key, None, TripTimedOut, now)));
      ShowUnseen(screen, FlushGps(s).effects);
    }
    ShowUnseen(screen, []);
  }

  lemma AnswerShows(screen: Screen, cfg: Config, s: RecorderState, legId: Option<int>, attemptSeq: Option<int>,
                    departedAt: Time, missed: Option<string>)
    requires s.Shaped() && Shows(screen, s)
    ensures var o := UserAnswered(cfg, s, legId, attemptSeq, departedAt, missed);
            Shows(ShowAll(screen, o.effects), o.state)
  {
    hide Answer;
    ShowUnseen(screen, []);
    if s.trip.Some? && AnsweredLeg(s.trip.value.legs).Some? {
      AnswerOnLegShows(screen, cfg.policy.maxAttemptSeq, s, AnsweredLeg(s.trip.value.legs).value, departedAt, missed);
    }
  }

  lemma AnswerOnLegShows(screen: Screen, limit: int, s: RecorderState, i: nat, departedAt: Time, missed: Option<string>)
    requires s.Shaped() && s.trip.Some? && i < |s.trip.value.legs| && Shows(screen, s)
    requires s.trip.value.legs[i].phase == Waiting || s.trip.value.legs[i].phase == NotStarted
    ensures Shows(ShowAll(screen, Answer(limit, s, i, departedAt, missed).effects), Answer(limit, s, i, departedAt, missed).state)
  {
    hide Answer, ShowAll;
    var trip := s.trip.value;
    var o := Answer(limit, s, i, departedAt, missed);
    var closed := if trip.legs[i].phase == NotStarted then CloseLegs(trip, i, departedAt) else (trip, []);
    ShowUnseen(screen, []);
    if trip.legs[i].phase == NotStarted {
      CloseLegsShows(screen, trip, i, departedAt);
    }
    AnswerLegs(limit, s, i, departedAt, missed);
    var unseen, rest := AnswerSeen(limit, s, i, departedAt, missed);
    OneLegShows(screen, closed.1, closed.0, o.state.trip.value, i, unseen,
                SeenOf(closed.0, o.state.trip.value, i), rest, o.effects);
  }

  function SeenOf(trip: ActiveTrip, trip': ActiveTrip, i: nat): Effect
    requires trip.Shaped() && trip'.Shaped() && i < |trip.legs| && SameButLeg(trip, trip', i)
  {
    if trip'.legs[i].phase == Waiting then PromptBoarding(PromptFor(trip', i)) else DismissPrompt(trip.legs[i].legId)
  }

  lemma AnswerLegs(limit: int, s: RecorderState, i: nat, departedAt: Time, missed: Option<string>)
    requires s.Shaped() && s.trip.Some? && i < |s.trip.value.legs|
    ensures var trip := s.trip.value;
            var closed := if trip.legs[i].phase == NotStarted then CloseLegs(trip, i, departedAt).0 else trip;
            var o := Answer(limit, s, i, departedAt, missed).state;
            && o.trip.Some? && o.Shaped() && closed.Shaped() && SameButLeg(closed, o.trip.value, i)
            && closed.legs[i] == trip.legs[i] && closed.route == trip.route
  {
    hide CloseLegs, TooEarly, AnswerUpsert;
  }

  /** Which effect of a button is seen. */
  lemma AnswerSeen(limit: int, s: RecorderState, i: nat, departedAt: Time, missed: Option<string>)
    returns (unseen: seq<Effect>, rest: seq<Effect>)
    requires s.Shaped() && s.trip.Some? && i < |s.trip.value.legs|
    requires s.trip.value.legs[i].phase == Waiting || s.trip.value.legs[i].phase == NotStarted
    ensures (forall x :: x in unseen ==> Unseen(x)) && (forall x :: x in rest ==> Unseen(x))
    ensures var trip := s.trip.value;
            var (closed, closing) := if trip.legs[i].phase == NotStarted then CloseLegs(trip, i, departedAt) else (trip, []);
            var o := Answer(limit, s, i, departedAt, missed);
            && o.state.trip.Some? && o.state.Shaped() && closed.Shaped() && SameButLeg(closed, o.state.trip.value, i)
            && o.effects == closing + (unseen + [SeenOf(closed, o.state.trip.value, i)] + rest)
  {
    AnswerLegs(limit, s, i, departedAt, missed);
    hide CloseLegs, TooEarly, AnswerUpsert, PromptFor;
    var trip := s.trip.value;
    var p := trip.legs[i];
    var early := TooEarly(trip, p, departedAt);
    unseen := (if early then [NeedsReview(Note(trip.key, Some(p.legId), TimeOutOfOrder, departedAt))] else [])
              + [Enqueue(UpsertAttempt(trip.key, AnswerUpsert(p, if early then None else Some(departedAt), missed)))];
    rest := if Answer(limit, s, i, departedAt, missed).state.trip.value.legs[i].phase != Done then []
            else [NeedsReview(Note(trip.key, Some(p.legId), AttemptLimitReached, departedAt))];
  }

  lemma StartShows(screen: Screen, s: RecorderState, route: Route, at: Time, rest: seq<Effect>)
    requires s.trip.None? && Shows(screen, s) && route.Distinct() && forall e :: e in rest ==> Unseen(e)
    ensures Shows(ShowAll(screen, StartTrip(s, route, at).effects + rest), StartTrip(s, route, at).state)
  {
    var effects := StartTrip(s, route, at).effects;
    ShowAmid(screen, [effects[0]], effects[1], rest);
    assert effects + rest == [effects[0]] + [effects[1]] + rest;
  }

  lemma OriginShows(screen: Screen, s: RecorderState, roles: seq<Role>, at: Time)
    requires s.trip.Some? && s.Shaped() && Shows(screen, s)
    ensures var s1 := EnterOrigin(s, roles, at);
            s1.trip.Some? && s1.Shaped() && s1.trip.value.route == s.trip.value.route && Shows(screen, s1)
  {
  }

  lemma EnterShows(screen: Screen, cfg: Config, s: RecorderState, roles: seq<Role>, at: Time)
    requires s.Shaped() && Shows(screen, s) && forall route :: route in cfg.routes ==> route.Distinct()
    ensures Shows(ShowAll(screen, EnterRegions(cfg, s, roles, at).effects), EnterRegions(cfg, s, roles, at).state)
  {
    hide ShowAll, EnterStops, SortStops, StopsOf, Arrive, StartableAtStop, FirstRoute, PromptsMatch, EnterOrigin;
    ShowUnseen(screen, []);
    var begun := if s.trip.None? then StartFromFirstStop(cfg, s, roles, at) else Out(s, []);
    if s.trip.None? && begun.state.trip.Some? {
      StartShows(screen, s, begun.state.trip.value.route, at, begun.effects[2..]);
      assert begun.effects == begun.effects[..2] + begun.effects[2..];
    }
    if begun.state.trip.Some? {
      var s1 := EnterOrigin(begun.state, roles, at);
      var first := ShowAll(screen, begun.effects);
      OriginShows(first, begun.state, roles, at);
      var route := s1.trip.value.route;
      var stops := SortStops(StopsOf(route, roles));
      SortedStopsAreStops(StopsOf(route, roles), |route.transitLegs|);
      var passed := EnterStops(s1, stops, at);
      StopsShow(first, s1, stops, at);
      ShowConcat(screen, begun.effects, passed.effects);
      if Destination(route.id) in roles {
        ArriveShows(ShowAll(screen, begun.effects + passed.effects), passed.state, at);
        ShowConcat(screen, begun.effects + passed.effects, Arrive(passed.state, at).effects);
      } else {
        assert begun.effects + passed.effects + [] == begun.effects + passed.effects;
      }
    }
  }

  /** After every event the prompts on screen are exactly the waiting legs with their current attempt numbers, and
      location updates run exactly while a trip is recorded. */
  lemma HandleShows(screen: Screen, cfg: Config, s: RecorderState, e: Event)
    requires s.Shaped() && Shows(screen, s) && forall route :: route in cfg.routes ==> route.Distinct()
    ensures Shows(ShowAll(screen, Handle(cfg, s, e).effects), Handle(cfg, s, e).state)
  {
    hide ShowAll, EnterRegions, UserAnswered, OnTick, RouteToStart, DismissWaiting;
    ShowUnseen(screen, []);
    match e
    case RegionExited(identifier, at) =>
      var o := Handle(cfg, s, e);
      if s.trip.None? && o.state.trip.Some? {
        StartShows(screen, s, o.state.trip.value.route, at, o.effects[2..]);
        assert o.effects[..2] == StartTrip(s, o.state.trip.value.route, at).effects;
        assert o.effects == o.effects[..2] + o.effects[2..];
      } else {
        ShowUnseen(screen, o.effects);
      }
    case RegionEntered(identifier, at) => EnterShows(screen, cfg, s, cfg.plan.RolesFor(identifier), at);
    case UserCaught(legId, attemptSeq, at, departedAt) =>
      AnswerShows(screen, cfg, s, legId, attemptSeq, if departedAt.Some? then departedAt.value else at, None);
    case UserMissed(legId, attemptSeq, at, departedAt, notes) =>
      AnswerShows(screen, cfg, s, legId, attemptSeq, if departedAt.Some? then departedAt.value else at,
                  Some(if notes.Some? then notes.value else ""));
    case UserCancelledTrip(key, _) =>
      if Cancels(s, e) {
        EndingShows(screen, s, [DiscardOutbox(s.trip.value.key)], CancelTrip(s).effects);
      }
    case Location(sample) =>
      ShowUnseen(screen, OnLocation(cfg, s, sample).effects);
    case Tick(at) => TickShows(screen, cfg, s, at);
  }
}
