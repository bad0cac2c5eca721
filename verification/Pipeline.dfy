/** The recorder, the outbox, the network and the server as one machine. An event goes through the recorder and its
    effects through the outbox in order (RecordingSession.swift); everything else is a step of the link. */
module Pipeline {
  import opened Basics
  import opened Commands
  import opened TripServer
  import opened CommandFold
  import opened TripViews
  import opened OutboxModel
  import opened Link
  import L = Link
  import opened LinkSubmit
  import opened LinkCancel
  import LinkNetwork
  import LinkServe
  import opened Routes
  import opened RecorderModel
  import opened RecorderRules
  import opened RecorderFacts

  datatype System = System(link: Link, recorder: RecorderState, cfg: Config)

  function Boot(cfg: Config): System {
    System(Start, Resting, cfg)
  }

  // ---- carrying out effects ----------------------------------------------------------------------

  ghost function Perform(l: Link, e: Effect, now: Time): Link {
    match e
    case Enqueue(c) => Submit(l, c, now)
    case DiscardOutbox(k) => Cancel(l, k, now)
    case _ => l
  }

  ghost function PerformAll(l: Link, effects: seq<Effect>, now: Time): Link {
    if effects == [] then l
    else Perform(PerformAll(l, effects[..|effects| - 1], now), effects[|effects| - 1], now)
  }

  /** What the effects put in, a cancellation written as DeleteTrip. */
  function CommandsOf(effects: seq<Effect>): seq<Command> {
    if effects == [] then []
    else
      CommandsOf(effects[..|effects| - 1])
      + match effects[|effects| - 1]
        case Enqueue(c) => [c]
        case DiscardOutbox(k) => [DeleteTrip(k)]
        case _ => []
  }

  lemma {:induction false} PerformLogs(l: Link, effects: seq<Effect>, now: Time)
    ensures PerformAll(l, effects, now).log == l.log + CommandsOf(effects)
  {
    if effects == [] {
      assert l.log + [] == l.log;
    } else {
      PerformLogs(l, effects[..|effects| - 1], now);
    }
  }

  // ---- what the world grants ---------------------------------------------------------------------

  /** No two trips of a route leave home at the same millisecond, the assumption behind the server's key for resent
      creates. */
  predicate FreshDeparture(claims: Claims, c: Command) {
    match c
    case CreateTrip(k, _) => (k.routeId, k.leftHomeAt) !in claims
    case UpdateTrip(k, p) =>
      p.leftHomeAt.Some? && (k.routeId, p.leftHomeAt.value) in claims ==> claims[(k.routeId, p.leftHomeAt.value)] == k
    case _ => true
  }

  predicate FreshDepartures(claims: Claims, effects: seq<Effect>) {
    forall e :: e in effects && e.Enqueue? ==> FreshDeparture(claims, e.command)
  }

  /** The points are in the ranges that the server stores. */
  predicate AllValid(points: seq<GpsPoint>) {
    forall p :: p in points ==> PointValid(p)
  }

  predicate ActiveKey(s: RecorderState, k: TripKey) {
    s.trip.Some? && s.trip.value.key == k
  }

  predicate OnGlobe(sample: Sample) {
    -90.0 <= sample.lat <= 90.0 && -180.0 <= sample.lng <= 180.0
  }

  /** The event starts no second trip at a used millisecond, and a sample it carries has coordinates on the globe. */
  predicate Plausible(s: System, e: Event)
    requires s.recorder.Shaped()
  {
    && FreshDepartures(s.link.claims, Handle(s.cfg, s.recorder, e).effects)
    && (e.Location? ==> OnGlobe(e.sample))
  }

  /** The recorder drops samples without a usable accuracy and speeds below zero, so what it accepts the server takes. */
  lemma AcceptedIsValid(cfg: Config, s: RecorderState, e: Event)
    requires e.Location? ==> OnGlobe(e.sample)
    ensures AllValid(AcceptedSamples(cfg, s, e))
  {
  }

  // ---- invariant ---------------------------------------------------------------------------------

  /** A trip that was ever cancelled stays empty, and only a cancelled trip can leak. */
  ghost predicate CancelledStay(l: Link) {
    && (forall k :: DeleteTrip(k) in l.log ==>
          Known(l.claims, k) && Ideal(l.log, k).None? && IdealRows(l.log, k) == map[])
    && (forall k :: k in l.leaked ==> DeleteTrip(k) in l.log)
  }

  ghost predicate AllDisciplined(log: seq<Command>) {
    forall k :: Ideal(log, k).Some? ==> Disciplined(Ideal(log, k).value)
  }

  /** A command that a server applying everything recorded before it would accept. Uploads are checked when they are
      cut into batches. */
  function Obeying(k: TripKey): (Option<TripRec>, Command) -> bool {
    (t: Option<TripRec>, c: Command) => c.UploadGps? || Fits(t, c, k)
  }

  ghost predicate Obedient(log: seq<Command>) {
    forall k :: Chain(TripWriter(k), Obeying(k), None, log)
  }

  ghost predicate LinkInv(l: Link) {
    Inv(l) && CancelledStay(l) && AllDisciplined(l.log) && Obedient(l.log)
  }

  ghost predicate SysInv(s: System) {
    && LinkInv(s.link)
    && Sound(s.cfg) && s.recorder.Shaped()
    && (s.recorder.trip.Some? ==>
          var trip := s.recorder.trip.value;
          && Ideal(s.link.log, trip.key).Some?
          && Matches(trip, Ideal(s.link.log, trip.key).value)
          && AllValid(trip.gpsBuffer))
  }

  lemma BootsWell(cfg: Config)
    requires Sound(cfg)
    ensures SysInv(Boot(cfg))
  {
    StartsWell();
  }

  // ---- one event ---------------------------------------------------------------------------------

  /** The cursor's trip is the one the log describes. */
  ghost predicate Agrees(l: Link, c: Cursor) {
    c.Open? ==> Ideal(l.log, c.key) == Some(c.rec)
  }

  /** Between `l` and `m`, departures were used only by the cursor's trip. */
  predicate GrownFor(l: Link, m: Link, c: Cursor) {
    && (c.Idle? ==> m.claims == l.claims)
    && (c.Open? ==>
          forall x :: x in m.claims ==> m.claims[x] == c.key || (x in l.claims && l.claims[x] == m.claims[x]))
  }

  lemma SubmitKeepsLinkInv(l: Link, c: Command, now: Time)
    requires LinkInv(l) && MaySubmit(l, c)
    requires c.TripKeyOf().Some? && var k := c.TripKeyOf().value;
             WriteTrip(Ideal(l.log, k), c, k).Some? ==> Disciplined(WriteTrip(Ideal(l.log, k), c, k).value)
    ensures LinkInv(Submit(l, c, now))
  {
    hide Disciplined, Chain, Fold, ServerInv, FlightInv, QueueInv;
    SubmitKeepsInv(l, c, now);
    Grown(l, c);
    var k := c.TripKeyOf().value;
    forall x ensures Ideal(l.log + [c], x) == WriteTrip(Ideal(l.log, x), c, x)
             ensures IdealRows(l.log + [c], x) == WriteRows(IdealRows(l.log, x), c, x, {}) {
      IdealLast(l, c, x);
    }
    forall x ensures Chain(TripWriter(x), Obeying(x), None, l.log + [c]) {
      assert KeyInv(l, k);
      FoldLast(TripWriter(x), Obeying(x), None, l.log, c);
    }
    forall x | DeleteTrip(x) in l.log + [c]
      ensures Known(Submit(l, c, now).claims, x) && Ideal(l.log + [c], x).None? && IdealRows(l.log + [c], x) == map[]
    {
      assert DeleteTrip(x) in l.log;
      assert !c.Of(x);
    }
  }

  lemma CancelKeepsLinkInv(l: Link, k: TripKey, now: Time)
    requires LinkInv(l) && Ideal(l.log, k).Some?
    ensures LinkInv(Cancel(l, k, now))
    ensures Ideal(Cancel(l, k, now).log, k).None?
  {
    hide Inv, Disciplined, Chain;
    CancelKeepsInv(l, k, now);
    KnownWhenRecorded(l, k);
    var c := DeleteTrip(k);
    forall x ensures Chain(TripWriter(x), Obeying(x), None, l.log + [c]) {
      FoldLast(TripWriter(x), Obeying(x), None, l.log, c);
    }
    forall x ensures Ideal(l.log + [c], x) == WriteTrip(Ideal(l.log, x), c, x)
             ensures IdealRows(l.log + [c], x) == WriteRows(IdealRows(l.log, x), c, x, {}) {
      IdealLast(l, c, x);
    }
  }

  /** What one effect needs of the world. */
  predicate Granted(claims: Claims, e: Effect) {
    e.Enqueue? ==> FreshDeparture(claims, e.command) && (e.command.UploadGps? ==> AllValid(e.command.points))
  }

  lemma OneEffect(l: Link, e: Effect, c: Cursor, now: Time)
    requires LinkInv(l) && Agrees(l, c) && Advance(c, e).Some? && Granted(l.claims, e)
    ensures LinkInv(Perform(l, e, now)) && Agrees(Perform(l, e, now), Advance(c, e).value)
    ensures c.Open? ==> Advance(c, e).value.Over? || (Advance(c, e).value.Open? && Advance(c, e).value.key == c.key)
    ensures c.Over? ==> Advance(c, e).value.Over?
  {
    match e
    case Enqueue(cmd) =>
      var k := cmd.TripKeyOf().value;
      if cmd.CreateTrip? {
        assert KeyInv(l, k);
        assert Ideal(l.log, k).None?;
        assert Disciplined(FreshTrip(k, cmd.tripDate));
      }
      assert MaySubmit(l, cmd);
      IdealLast(l, cmd, k);
      SubmitKeepsLinkInv(l, cmd, now);
    case DiscardOutbox(k) => CancelKeepsLinkInv(l, k, now);
    case _ =>
  }

  /** Claims grow only for the trip in hand. */
  lemma OneEffectGrows(l: Link, m: Link, e: Effect, c: Cursor, now: Time)
    requires Advance(c, e).Some? && GrownFor(l, m, c)
    ensures GrownFor(l, Perform(m, e, now), Advance(c, e).value)
  {
  }

  lemma StillGranted(l: Link, m: Link, e: Effect, c: Cursor)
    requires Advance(c, e).Some? && GrownFor(l, m, c) && Granted(l.claims, e)
    ensures Granted(m.claims, e)
  {
  }

  predicate UploadsValid(effects: seq<Effect>) {
    forall e :: e in effects && IsUpload(e) ==> AllValid(e.command.points)
  }

  lemma {:induction false} AllEffects(l: Link, effects: seq<Effect>, c: Cursor, now: Time)
    requires LinkInv(l) && Agrees(l, c) && AdvanceAll(c, effects).Some?
    requires FreshDepartures(l.claims, effects) && UploadsValid(effects)
    ensures var m := PerformAll(l, effects, now);
            LinkInv(m) && Agrees(m, AdvanceAll(c, effects).value) && GrownFor(l, m, AdvanceAll(c, effects).value)
    ensures c.Open? ==> AdvanceAll(c, effects).value.Over?
                        || (AdvanceAll(c, effects).value.Open? && AdvanceAll(c, effects).value.key == c.key)
  {
    hide LinkInv, Agrees, Advance, Perform;
    if effects != [] {
      var front, e := effects[..|effects| - 1], effects[|effects| - 1];
      assert effects == front + [e];
      AllEffects(l, front, c, now);
      var m, mid := PerformAll(l, front, now), AdvanceAll(c, front).value;
      assert e in effects;
      StillGranted(l, m, e, mid);
      OneEffect(m, e, mid, now);
      OneEffectGrows(l, m, e, mid, now);
    }
  }

  // ---- the recorder's state after an event -------------------------------------------------------

  lemma {:induction false} UploadIn(effects: seq<Effect>, e: Effect, p: GpsPoint)
    requires e in effects && IsUpload(e) && p in e.command.points
    ensures p in Uploads(effects)
  {
    var front := effects[..|effects| - 1];
    if e != effects[|effects| - 1] {
      assert effects == front + [effects[|effects| - 1]];
      UploadIn(front, e, p);
    }
  }

  /** Samples handed over or still buffered are among those buffered before and the one accepted. */
  lemma PointsKept(effects: seq<Effect>, kept: seq<GpsPoint>, all: seq<GpsPoint>)
    requires Uploads(effects) + kept == all || (Uploads(effects) == [] && kept == [])
    ensures forall p :: p in kept ==> p in all
    ensures forall e, p :: e in effects && IsUpload(e) && p in e.command.points ==> p in all
  {
    forall e, p | e in effects && IsUpload(e) && p in e.command.points ensures p in all {
      UploadIn(effects, e, p);
    }
  }

  /** The state an event leaves, from what the recorder guarantees about its outcome. */
  lemma OutcomeKeepsInv(s: System, o: Out, all: seq<GpsPoint>, c: Cursor, now: Time)
    requires SysInv(s) && o.state.Shaped()
    requires FreshDepartures(s.link.claims, o.effects)
    requires Uploads(o.effects) + BufferOf(o.state) == all || (Uploads(o.effects) == [] && BufferOf(o.state) == [])
    requires AllValid(all) && (s.recorder.trip.None? ==> all == [])
    requires AdvanceAll(CursorOf(s), o.effects) == Some(c) && Tracks(o.state, c)
    ensures SysInv(System(PerformAll(s.link, o.effects, now), o.state, s.cfg))
    ensures GrownFor(s.link, PerformAll(s.link, o.effects, now), c)
  {
    hide LinkInv, Matches;
    PointsKept(o.effects, BufferOf(o.state), all);
    var c0 := CursorOf(s);
    forall e | e in o.effects && IsUpload(e) ensures AllValid(e.command.points) {
      forall p | p in e.command.points ensures PointValid(p) {
        assert p in all;
      }
    }
    AllEffects(s.link, o.effects, c0, now);
  }

  // ---- steps -------------------------------------------------------------------------------------

  /** `Observe` is one event and its effects. `Reconfigure` brings new routes and a new plan. `DeliverLate` is the network
      handing over a request that was reported as failed, or that a relaunch has forgotten. The others are the outbox's
      driver, the network, a relaunch, and what the user does to the outbox. */
  datatype Step =
    | Observe(event: Event, now: Time)
    | Reconfigure(routes: seq<Route>, plan: GeofencePlan)
    | SendNext(now: Time)
    | Deliver(id: nat)
    | DeliverLate(orphan: Orphan)
    | Report(policy: RetryPolicy, id: nat, outcome: Outcome, now: Time)
    | Relaunch
    | ResumeSending
    | ExpediteRetries
    | ClearLetters

  ghost predicate MayDo(s: System, step: Step)
    requires s.recorder.Shaped()
  {
    match step
    case Observe(e, _) => Plausible(s, e)
    case Reconfigure(routes, _) => forall route :: route in routes ==> route.Distinct()
    case Deliver(id) => MayArrive(s.link, id)
    case DeliverLate(o) => o in s.link.orphans
    case Report(_, id, o, _) => MayAnswer(s.link, id, o)
    case _ => true
  }

  ghost function Do(s: System, step: Step): (s': System)
    requires s.recorder.Shaped() && MayDo(s, step)
    ensures s'.recorder.Shaped()
  {
    match step
    case Observe(e, now) =>
      var o := Handle(s.cfg, s.recorder, e);
      System(PerformAll(s.link, o.effects, now), o.state, s.cfg)
    case Reconfigure(routes, plan) => s.(cfg := s.cfg.(routes := routes, plan := plan))
    case SendNext(now) => s.(link := Send(s.link, now))
    case Deliver(id) => s.(link := L.Arrive(s.link, id))
    case DeliverLate(o) => s.(link := Land(s.link, o))
    case Report(policy, id, o, now) => s.(link := L.Answer(s.link, policy, id, o, now))
    case Relaunch => s.(link := Restart(s.link))
    case ResumeSending => s.(link := s.link.(outbox := Resume(s.link.outbox)))
    case ExpediteRetries => s.(link := s.link.(outbox := Expedite(s.link.outbox)))
    case ClearLetters => s.(link := s.link.(outbox := ClearDeadLetters(s.link.outbox)))
  }

  function CursorOf(s: System): Cursor
    requires s.recorder.trip.Some? ==> Ideal(s.link.log, s.recorder.trip.value.key).Some?
  {
    if s.recorder.trip.None? then Idle
    else Open(s.recorder.trip.value.key, Ideal(s.link.log, s.recorder.trip.value.key).value)
  }

  /** What an event leaves behind. */
  lemma ObserveKeepsInv(s: System, e: Event, now: Time) returns (c: Cursor)
    requires SysInv(s) && Plausible(s, e)
    ensures SysInv(Do(s, Observe(e, now)))
    ensures AdvanceAll(CursorOf(s), Handle(s.cfg, s.recorder, e).effects) == Some(c)
    ensures GrownFor(s.link, Do(s, Observe(e, now)).link, c)
  {
    hide Handle, Inv, Matches;
    var o := Handle(s.cfg, s.recorder, e);
    c := HandleTracks(s.cfg, s.recorder, e, CursorOf(s));
    GpsConserved(s.cfg, s.recorder, e);
    AcceptedIsValid(s.cfg, s.recorder, e);
    OutcomeKeepsInv(s, o, BufferOf(s.recorder) + AcceptedSamples(s.cfg, s.recorder, e), c, now);
  }

  /** The steps that only the link takes. */
  lemma LinkStepKeepsInv(s: System, step: Step)
    requires SysInv(s) && MayDo(s, step) && !step.Observe? && !step.Reconfigure?
    ensures SysInv(Do(s, step))
  {
    hide Inv, Matches, Disciplined, Chain;
    var l := s.link;
    match step
    case SendNext(now) => LinkNetwork.SendKeepsInv(l, now);
    case Deliver(id) => LinkServe.ArriveKeepsInv(l, id);
    case DeliverLate(o) => LinkServe.LandKeepsInv(l, o);
    case Report(policy, id, o, now) => LinkNetwork.AnswerKeepsInv(l, policy, id, o, now);
    case Relaunch => LinkNetwork.RestartKeepsInv(l);
    case ResumeSending => LinkNetwork.ResumeKeepsInv(l);
    case ExpediteRetries => LinkNetwork.ExpediteKeepsInv(l);
    case ClearLetters => LinkNetwork.ClearKeepsInv(l);
  }

  lemma StepKeepsInv(s: System, step: Step)
    requires SysInv(s) && MayDo(s, step)
    ensures SysInv(Do(s, step))
  {
    hide Handle, PerformAll, Inv, Matches;
    match step
    case Observe(e, now) => var _ := ObserveKeepsInv(s, e, now);
    case Reconfigure(_, _) =>
    case _ => LinkStepKeepsInv(s, step);
  }
}
