/** What a run keeps for each trip: every accepted GPS sample in order, silence once the trip is over, and a screen
    that agrees with the recorder. */
module PipelineTrips {
  import opened Basics
  import opened Commands
  import opened TripViews
  import TripServer
  import opened OutboxModel
  import opened Link
  import opened RecorderModel
  import opened RecorderRules
  import opened RecorderFacts
  import opened Pipeline
  import opened PipelineRuns

  // ---- GPS samples -------------------------------------------------------------------------------

  /** The points put in for a trip, in order. */
  function PointsFor(cs: seq<Command>, k: TripKey): seq<GpsPoint> {
    if cs == [] then []
    else
      var c := cs[|cs| - 1];
      PointsFor(cs[..|cs| - 1], k) + if c.UploadGps? && c.Of(k) then c.points else []
  }

  lemma PointsOfOne(cs: seq<Command>, c: Command, k: TripKey)
    ensures PointsFor(cs + [c], k) == PointsFor(cs, k) + if c.UploadGps? && c.Of(k) then c.points else []
  {
    assert (cs + [c])[..|cs|] == cs;
  }

  lemma {:induction false} PointsConcat(a: seq<Command>, b: seq<Command>, k: TripKey)
    ensures PointsFor(a + b, k) == PointsFor(a, k) + PointsFor(b, k)
    decreases |b|
  {
    if b == [] {
      assert a + b == a;
    } else {
      var f, x := b[..|b| - 1], b[|b| - 1];
      Reassociate(a, f, [x]);
      assert b == f + [x];
      hide PointsFor;
      PointsConcat(a, f, k);
      PointsOfOne(a + f, x, k);
      PointsOfOne(f, x, k);
      Reassociate(PointsFor(a, k), PointsFor(f, k), if x.UploadGps? && x.Of(k) then x.points else []);
    }
  }

  lemma Reassociate<T>(a: seq<T>, b: seq<T>, c: seq<T>)
    ensures a + (b + c) == a + b + c
  {
  }

  lemma {:induction false} NoPoints(effects: seq<Effect>, k: TripKey)
    requires Uploads(effects) == []
    ensures PointsFor(CommandsOf(effects), k) == []
  {
    if effects != [] {
      NoPoints(effects[..|effects| - 1], k);
      PointsOfEffect(effects[..|effects| - 1], effects[|effects| - 1], effects, k);
    }
  }

  predicate Within(c: Cursor, key: TripKey) {
    c.Over? || (c.Open? && c.key == key)
  }

  lemma OwnEffect(c: Cursor, e: Effect, key: TripKey)
    requires Within(c, key) && Advance(c, e).Some?
    ensures Within(Advance(c, e).value, key)
    ensures e.Enqueue? ==> e.command.Of(key)
    ensures e.DiscardOutbox? ==> e.key == key
  {
  }

  /** Everything handed over in a trip belongs to that trip. */
  lemma {:induction false} OwnPoints(c: Cursor, effects: seq<Effect>, key: TripKey, k: TripKey)
    requires Within(c, key) && AdvanceAll(c, effects).Some?
    ensures Within(AdvanceAll(c, effects).value, key)
    ensures PointsFor(CommandsOf(effects), k) == if k == key then Uploads(effects) else []
  {
    if effects != [] {
      var front, e := effects[..|effects| - 1], effects[|effects| - 1];
      OwnPoints(c, front, key, k);
      OwnEffect(AdvanceAll(c, front).value, e, key);
      PointsOfEffect(front, e, effects, k);
    }
  }

  lemma PointsOfEffect(front: seq<Effect>, e: Effect, effects: seq<Effect>, k: TripKey)
    requires effects != [] && front == effects[..|effects| - 1] && e == effects[|effects| - 1]
    ensures PointsFor(CommandsOf(effects), k)
            == PointsFor(CommandsOf(front), k) + if IsUpload(e) && e.command.Of(k) then e.command.points else []
  {
    if e.Enqueue? {
      PointsOfOne(CommandsOf(front), e.command, k);
    } else if e.DiscardOutbox? {
      PointsOfOne(CommandsOf(front), DeleteTrip(e.key), k);
    } else {
      assert CommandsOf(effects) == CommandsOf(front);
    }
  }

  lemma {:induction false} DiscardIsRecorded(effects: seq<Effect>, k: TripKey)
    requires DiscardOutbox(k) in effects
    ensures DeleteTrip(k) in CommandsOf(effects)
  {
    var front, e := effects[..|effects| - 1], effects[|effects| - 1];
    if e != DiscardOutbox(k) {
      assert effects == front + [e];
      DiscardIsRecorded(front, k);
    }
  }

  function AcceptedFor(s: System, step: Step, k: TripKey): seq<GpsPoint> {
    if step.Observe? && ActiveKey(s.recorder, k) then AcceptedSamples(s.cfg, s.recorder, step.event) else []
  }

  /** The samples accepted for a trip over the run, in order. */
  function AllAccepted(states: seq<System>, steps: seq<Step>, k: TripKey): seq<GpsPoint>
    requires |states| == |steps| + 1
    decreases |steps|
  {
    if steps == [] then []
    else
      var n := |steps| - 1;
      AllAccepted(states[..n + 1], steps[..n], k) + AcceptedFor(states[n], steps[n], k)
  }

  function BufferFor(s: System, k: TripKey): seq<GpsPoint> {
    if ActiveKey(s.recorder, k) then s.recorder.trip.value.gpsBuffer else []
  }

  /** One event, from what the recorder guarantees about its outcome. */
  lemma OutcomeConserves(s: System, o: Out, accepted: seq<GpsPoint>, c: Cursor, k: TripKey)
    requires SysInv(s) && (s.recorder.trip.None? ==> accepted == [])
    requires Uploads(o.effects) + BufferOf(o.state) == BufferOf(s.recorder) + accepted
    requires AdvanceAll(CursorOf(s), o.effects) == Some(c) && Tracks(o.state, c)
    ensures PointsFor(CommandsOf(o.effects), k) + BufferFor(System(s.link, o.state, s.cfg), k)
            == BufferFor(s, k) + if ActiveKey(s.recorder, k) then accepted else []
  {
    if s.recorder.trip.None? {
      NoPoints(o.effects, k);
    } else {
      OwnPoints(CursorOf(s), o.effects, s.recorder.trip.value.key, k);
    }
  }

  lemma CancelIsRecorded(s: System, e: Event)
    requires s.recorder.Shaped() && Cancels(s.recorder, e)
    ensures DeleteTrip(s.recorder.trip.value.key) in CommandsOf(Handle(s.cfg, s.recorder, e).effects)
  {
    var effects := Handle(s.cfg, s.recorder, e).effects;
    assert effects[|effects| - 3] == DiscardOutbox(s.recorder.trip.value.key);
    DiscardIsRecorded(effects, s.recorder.trip.value.key);
  }

  lemma StepConserves(s: System, step: Step, k: TripKey)
    requires SysInv(s) && MayDo(s, step) && DeleteTrip(k) !in RecordedBy(s, step)
    ensures PointsFor(RecordedBy(s, step), k) + BufferFor(Do(s, step), k) == BufferFor(s, k) + AcceptedFor(s, step, k)
  {
    hide Handle, Inv, Matches, Uploads;
    if step.Observe? {
      var e := step.event;
      var o := Handle(s.cfg, s.recorder, e);
      var c := HandleTracks(s.cfg, s.recorder, e, CursorOf(s));
      GpsConserved(s.cfg, s.recorder, e);
      if Cancels(s.recorder, e) {
        CancelIsRecorded(s, e);
        NoPoints(o.effects, k);
      } else {
        OutcomeConserves(s, o, AcceptedSamples(s.cfg, s.recorder, e), c, k);
      }
    }
  }

  lemma Regroup<T>(front: seq<T>, next: seq<T>, after: seq<T>, before: seq<T>, more: seq<T>)
    requires next + after == before + more
    ensures front + next + after == front + before + more
  {
    assert front + next + after == front + (next + after);
    assert front + before + more == front + (before + more);
  }

  lemma NextConserves(front: seq<Command>, s: System, step: Step, k: TripKey, accepted: seq<GpsPoint>)
    requires SysInv(s) && MayDo(s, step) && DeleteTrip(k) !in front + RecordedBy(s, step)
    requires PointsFor(front, k) + BufferFor(s, k) == accepted
    ensures PointsFor(front + RecordedBy(s, step), k) + BufferFor(Do(s, step), k) == accepted + AcceptedFor(s, step, k)
  {
    hide Handle, Inv, Matches, Do, PointsFor;
    var next := RecordedBy(s, step);
    StepConserves(s, step, k);
    PointsConcat(front, next, k);
    Regroup(PointsFor(front, k), PointsFor(next, k), BufferFor(Do(s, step), k), BufferFor(s, k), AcceptedFor(s, step, k));
  }

  /** For a trip that was not cancelled, the points put in over the run and those still buffered are exactly the accepted
      samples, in the order they came. */
  lemma {:induction false} SamplesConserved(states: seq<System>, steps: seq<Step>, k: TripKey)
    requires IsRun(states, steps) && DeleteTrip(k) !in Recorded(states, steps)
    ensures PointsFor(Recorded(states, steps), k) + BufferFor(Last(states), k) == AllAccepted(states, steps, k)
    decreases |steps|
  {
    assert PointsFor([], k) == [];
    hide RecordedBy, SysInv, PointsFor, Do, MayDo, Handle;
    if steps != [] {
      var n := |steps| - 1;
      RunPrefix(states, steps);
      SamplesConserved(states[..n + 1], steps[..n], k);
      NextConserves(Recorded(states[..n + 1], steps[..n]), states[n], steps[n], k,
                    AllAccepted(states[..n + 1], steps[..n], k));
    }
  }

  /** The outbox cuts an upload into batches the server takes, losing and reordering nothing. */
  lemma {:induction false} BatchesConcat(st: OutboxState, owner: Option<TripKey>, points: seq<GpsPoint>, now: Time)
    returns (batches: seq<Entry>)
    ensures AppendAll(st, owner, points, now).entries == st.entries + batches
    ensures forall i :: 0 <= i < |batches| ==>
              batches[i].command.UploadGps? && batches[i].command.owner == owner
              && 1 <= |batches[i].command.points| <= TripServer.MAX_GPS_POINTS
    ensures owner.Some? ==> PointsFor(Cmds(batches), owner.value) == points
    decreases |points|
  {
    if points == [] {
      batches := [];
    } else {
      var n := if |points| < TripServer.MAX_GPS_POINTS then |points| else TripServer.MAX_GPS_POINTS;
      var c := UploadGps(owner, points[..n]);
      var first := Entry(st.nextId, c, now, 0, None, false);
      var mid := Append(st, c, now);
      assert AppendAll(st, owner, points, now) == AppendAll(mid, owner, points[n..], now);
      hide AppendAll, PointsFor, Cmds;
      var rest := BatchesConcat(mid, owner, points[n..], now);
      batches := [first] + rest;
      assert mid.entries + rest == st.entries + batches by {
        assert mid.entries == st.entries + [first];
      }
      if owner.Some? {
        BatchAhead(first, rest, owner.value);
        assert points[..n] + points[n..] == points;
      }
    }
  }

  lemma BatchAhead(first: Entry, rest: seq<Entry>, k: TripKey)
    requires first.command.UploadGps? && first.command.Of(k)
    ensures PointsFor(Cmds([first] + rest), k) == first.command.points + PointsFor(Cmds(rest), k)
  {
    var c := first.command;
    assert Cmds([first] + rest) == [c] + Cmds(rest);
    PointsConcat([c], Cmds(rest), k);
    PointsOfOne([], c, k);
    assert [] + [c] == [c];
  }

  // ---- after the end -----------------------------------------------------------------------------

  lemma {:induction false} CommandsLast(front: seq<Effect>, e: Effect, c: Command)
    requires c in CommandsOf(front + [e])
    ensures c in CommandsOf(front) || (e.Enqueue? && c == e.command) || (e.DiscardOutbox? && c == DeleteTrip(e.key))
  {
    assert (front + [e])[..|front|] == front;
  }

  /** With no trip in hand the only command is a create. */
  lemma IdleEffect(e: Effect)
    requires Advance(Idle, e).Some?
    ensures !e.DiscardOutbox?
    ensures if e.Enqueue?
            then && e.command == CreateTrip(e.command.TripKeyOf().value, KstDate(e.command.TripKeyOf().value.leftHomeAt))
                 && Within(Advance(Idle, e).value, e.command.key)
            else Advance(Idle, e).value.Idle?
  {
  }

  /** All commands of one event belong to one trip: the one in hand, or the one the event starts. */
  lemma {:induction false} OneTripOnly(c: Cursor, effects: seq<Effect>) returns (key: TripKey)
    requires !c.Over? && AdvanceAll(c, effects).Some?
    ensures forall x :: x in CommandsOf(effects) ==> x.Of(key)
    ensures c.Open? ==> key == c.key
    ensures Within(AdvanceAll(c, effects).value, key) || (c.Idle? && AdvanceAll(c, effects).value.Idle?)
    ensures c.Idle? ==> if AdvanceAll(c, effects).value.Idle? then CommandsOf(effects) == []
                        else Enqueue(CreateTrip(key, KstDate(key.leftHomeAt))) in effects
  {
    if effects == [] {
      key := if c.Open? then c.key else TripKey(0, 0);
    } else {
      var front, e := effects[..|effects| - 1], effects[|effects| - 1];
      assert effects == front + [e];
      key := OneTripOnly(c, front);
      var mid := AdvanceAll(c, front).value;
      hide Advance;
      if mid.Idle? {
        IdleEffect(e);
        if e.Enqueue? {
          key := e.command.key;
        }
      } else if Within(mid, key) {
        OwnEffect(mid, e, key);
      }
      forall x | x in CommandsOf(effects) ensures x.Of(key) {
        CommandsLast(front, e, x);
      }
    }
  }

  /** Once a trip is over nothing more is sent for it, and it does not come back: while another trip or none is
      recorded, no step puts in a command of a trip that was ever started. */
  lemma EndedTripStaysSilent(s: System, step: Step, k: TripKey)
    requires SysInv(s) && MayDo(s, step) && Known(s.link.claims, k) && !ActiveKey(s.recorder, k)
    ensures forall c :: c in RecordedBy(s, step) ==> !c.Of(k)
    ensures !ActiveKey(Do(s, step).recorder, k)
  {
    hide Handle, Inv, Matches, PerformAll;
    if step.Observe? {
      var o := Handle(s.cfg, s.recorder, step.event);
      var c := HandleTracks(s.cfg, s.recorder, step.event, CursorOf(s));
      OutcomeIsSilent(s, o, c, k);
    }
  }

  lemma OutcomeIsSilent(s: System, o: Out, c: Cursor, k: TripKey)
    requires SysInv(s) && Known(s.link.claims, k) && !ActiveKey(s.recorder, k)
    requires FreshDepartures(s.link.claims, o.effects)
    requires AdvanceAll(CursorOf(s), o.effects) == Some(c) && Tracks(o.state, c)
    ensures forall x :: x in CommandsOf(o.effects) ==> !x.Of(k)
    ensures !ActiveKey(o.state, k)
  {
    hide Inv;
    var key := OneTripOnly(CursorOf(s), o.effects);
    if s.recorder.trip.None? && !c.Idle? {
      assert FreshDeparture(s.link.claims, CreateTrip(key, KstDate(key.leftHomeAt)));
    }
  }

  // ---- screen and state --------------------------------------------------------------------------

  function EffectsOf(s: System, step: Step): seq<Effect>
    requires s.recorder.Shaped()
  {
    if step.Observe? then Handle(s.cfg, s.recorder, step.event).effects else []
  }

  /** The screen after a run. */
  ghost function ScreenAfter(states: seq<System>, steps: seq<Step>): Screen
    requires Path(states, steps)
    decreases |steps|
  {
    if steps == [] then Screen(map[], false)
    else
      var n := |steps| - 1;
      assert forall i :: 0 <= i < n ==> Follows(states[i], steps[i], states[i + 1]);
      assert Follows(states[n], steps[n], states[n + 1]);
      ShowAll(ScreenAfter(states[..n + 1], steps[..n]), EffectsOf(states[n], steps[n]))
  }

  lemma BootShows()
    ensures Shows(Screen(map[], false), Resting) && InOrder(Resting)
  {
  }

  lemma StepShows(screen: Screen, s: System, step: Step)
    requires SysInv(s) && MayDo(s, step) && Shows(screen, s.recorder) && InOrder(s.recorder)
    ensures Shows(ShowAll(screen, EffectsOf(s, step)), Do(s, step).recorder) && InOrder(Do(s, step).recorder)
  {
    hide Handle, Inv, PerformAll, Matches, ShowAll;
    ShowUnseen(screen, []);
    if step.Observe? {
      HandleShows(screen, s.cfg, s.recorder, step.event);
      HandleKeepsOrder(s.cfg, s.recorder, step.event);
    }
  }

  /** Over every run the prompts on screen are exactly the waiting legs with their current attempt numbers, location
      updates run exactly while a trip is recorded, and the legs of a trip are done, then at most one waiting or
      riding, then not started. */
  lemma {:induction false} ScreenAgrees(states: seq<System>, steps: seq<Step>)
    requires IsRun(states, steps)
    ensures Last(states).recorder.Shaped() && Shows(ScreenAfter(states, steps), Last(states).recorder)
    ensures InOrder(Last(states).recorder)
    decreases |steps|
  {
    BootShows();
    hide SysInv, Shows, InOrder, EffectsOf, Do, MayDo, Handle;
    if steps != [] {
      var n := |steps| - 1;
      RunPrefix(states, steps);
      ScreenAgrees(states[..n + 1], steps[..n]);
      StepShows(ScreenAfter(states[..n + 1], steps[..n]), states[n], steps[n]);
    }
  }

  /** Over every run a button for a leg and an attempt number acts exactly while its prompt, with that number, is on screen,
      or, as a first attempt, when the leg comes next and all earlier ones are done; otherwise nothing changes and nothing
      is sent. */
  lemma ButtonActsExactlyWhen(states: seq<System>, steps: seq<Step>, i: nat, attemptSeq: int, at: Time,
                              departedAt: Option<Time>, notes: Option<string>)
    requires IsRun(states, steps) && Last(states).recorder.Shaped() && Last(states).recorder.trip.Some?
    requires i < |Last(states).recorder.trip.value.legs|
    ensures var s, prompts := Last(states), ScreenAfter(states, steps).prompts;
            var trip := s.recorder.trip.value;
            var legId := trip.legs[i].legId;
            var caught := Handle(s.cfg, s.recorder, UserCaught(Some(legId), Some(attemptSeq), at, departedAt));
            var missed := Handle(s.cfg, s.recorder, UserMissed(Some(legId), Some(attemptSeq), at, departedAt, notes));
            var shown := legId in prompts && prompts[legId].attemptSeq == attemptSeq;
            var next := trip.legs[i].phase == NotStarted && forall j :: 0 <= j < i ==> trip.legs[j].phase == Done;
            if shown || (next && attemptSeq == 1)
            then Answers(caught.effects, trip.key, legId, attemptSeq, Caught)
                 && Answers(missed.effects, trip.key, legId, attemptSeq, Missed)
            else caught == Out(s.recorder, []) && missed == Out(s.recorder, [])
  {
    hide SysInv, EffectsOf, Do, MayDo, Handle, Answers;
    ScreenAgrees(states, steps);
    var s := Last(states);
    var trip := s.recorder.trip.value;
    ShownIsWaiting(ScreenAfter(states, steps).prompts, trip, i);
    NextIsFirst(trip.legs, i);
    hide PhasesInOrder;
    if Answerable(trip.legs, i) && trip.legs[i].attemptSeq == attemptSeq {
      LiveButtonRecords(s.cfg, s.recorder, i, at, departedAt, notes);
    } else {
      StaleButtonDoesNothing(s.cfg, s.recorder, i, attemptSeq, at, departedAt, notes);
    }
  }

  lemma NextIsFirst(legs: seq<LegProgress>, i: nat)
    requires i < |legs| && PhasesInOrder(legs)
    ensures legs[i].phase == NotStarted ==> legs[i].attemptSeq == 1
  {
  }

  lemma ShownIsWaiting(prompts: map<int, Prompt>, trip: ActiveTrip, i: nat)
    requires trip.Shaped() && trip.route.Distinct() && PromptsMatch(prompts, trip) && i < |trip.legs|
    ensures trip.legs[i].legId in prompts <==> trip.legs[i].phase == Waiting
    ensures trip.legs[i].phase == Waiting ==> prompts[trip.legs[i].legId].attemptSeq == trip.legs[i].attemptSeq
  {
    if trip.legs[i].legId in prompts {
      var j :| 0 <= j < |trip.legs| && trip.legs[j].legId == trip.legs[i].legId && trip.legs[j].phase == Waiting;
      assert trip.route.transitLegs[j].legId == trip.route.transitLegs[i].legId;
    }
  }

  /** Over every run the samples waiting for upload never reach the batch size. */
  lemma {:induction false} BufferBelowBatch(states: seq<System>, steps: seq<Step>)
    requires IsRun(states, steps) && states[0].cfg.policy.gpsBatchSize >= 1
    ensures Last(states).cfg.policy == states[0].cfg.policy
    ensures |BufferOf(Last(states).recorder)| < states[0].cfg.policy.gpsBatchSize
    decreases |steps|
  {
    hide SysInv, RecordedBy, Do, MayDo, Handle;
    if steps != [] {
      var n := |steps| - 1;
      RunPrefix(states, steps);
      BufferBelowBatch(states[..n + 1], steps[..n]);
      ShapedOf(states[n]);
      StepBuffers(states[n], steps[n]);
    }
  }

  lemma StepBuffers(s: System, step: Step)
    requires s.recorder.Shaped() && MayDo(s, step)
    requires s.cfg.policy.gpsBatchSize >= 1 && |BufferOf(s.recorder)| < s.cfg.policy.gpsBatchSize
    ensures Do(s, step).cfg.policy == s.cfg.policy && |BufferOf(Do(s, step).recorder)| < s.cfg.policy.gpsBatchSize
  {
    hide Handle, BufferOf, Plausible;
    if step.Observe? {
      BufferStaysBelowBatch(s.cfg, s.recorder, step.event);
    }
  }
}
