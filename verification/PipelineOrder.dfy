/** The order of one trip's commands over whole runs: the create first, then writes and uploads, after an arrival only
    the last upload, and nothing after the trip is over. */
module PipelineOrder {
  import opened Basics
  import opened Commands
  import opened TripViews
  import TripServer
  import opened Link
  import opened RecorderModel
  import opened RecorderRules
  import opened RecorderFacts
  import opened Pipeline
  import opened PipelineRuns
  import opened PipelineTrips

  /** Where the commands put in so far leave a trip. */
  datatype Stage = Unborn | Live | Arrived | Gone

  predicate IsArrival(c: Command, k: TripKey) {
    c.UpdateTrip? && c.key == k && c.patch.arrivedAt.Some?
  }

  /** One command of the trip; `None` means it is out of order. */
  function NextStage(stage: Stage, c: Command, k: TripKey): Option<Stage> {
    match stage
    case Unborn => if c.CreateTrip? then Some(Live) else None
    case Live =>
      if c.CreateTrip? then None
      else if c.DeleteTrip? then Some(Gone)
      else if IsArrival(c, k) then Some(Arrived)
      else Some(Live)
    case Arrived => if c.UploadGps? then Some(Arrived) else None
    case Gone => None
  }

  function StageAfter(cs: seq<Command>, k: TripKey): Option<Stage> {
    if cs == [] then Some(Unborn)
    else
      var front, c := StageAfter(cs[..|cs| - 1], k), cs[|cs| - 1];
      if front.None? || !c.Of(k) then front else NextStage(front.value, c, k)
  }

  lemma StageLast(cs: seq<Command>, c: Command, k: TripKey)
    requires StageAfter(cs, k).Some?
    ensures StageAfter(cs + [c], k) == if c.Of(k) then NextStage(StageAfter(cs, k).value, c, k) else StageAfter(cs, k)
  {
    assert (cs + [c])[..|cs|] == cs;
  }

  lemma {:induction false} StageMeans(cs: seq<Command>, k: TripKey)
    requires StageAfter(cs, k).Some?
    ensures StageAfter(cs, k) == Some(Unborn) <==> forall c :: c in cs ==> !c.Of(k)
    ensures (exists c :: c in cs && IsArrival(c, k)) ==> StageAfter(cs, k) == Some(Arrived)
    ensures DeleteTrip(k) in cs ==> StageAfter(cs, k) == Some(Gone)
  {
    if cs != [] {
      StageMeans(cs[..|cs| - 1], k);
      assert cs == cs[..|cs| - 1] + [cs[|cs| - 1]];
    }
  }

  lemma {:induction false} StagePrefix(cs: seq<Command>, k: TripKey, n: nat)
    requires StageAfter(cs, k).Some? && n <= |cs|
    ensures StageAfter(cs[..n], k).Some?
    decreases |cs|
  {
    if n < |cs| {
      StagePrefix(cs[..|cs| - 1], k, n);
      assert cs[..|cs| - 1][..n] == cs[..n];
    } else {
      assert cs[..n] == cs;
    }
  }

  // ---- one event ---------------------------------------------------------------------------------

  ghost predicate InStages(l: Link) {
    && (forall k :: StageAfter(l.log, k).Some?)
    && (forall k :: !Known(l.claims, k) ==> StageAfter(l.log, k) == Some(Unborn))
  }

  ghost predicate CursorStage(l: Link, c: Cursor) {
    c.Open? ==>
      && Known(l.claims, c.key)
      && StageAfter(l.log, c.key) == Some(if c.rec.arrivedAt.None? then Live else Arrived)
  }

  lemma OneEffectStage(l: Link, e: Effect, c: Cursor, now: Time)
    requires InStages(l) && CursorStage(l, c) && Advance(c, e).Some?
    requires e.Enqueue? ==> FreshDeparture(l.claims, e.command)
    ensures InStages(Perform(l, e, now)) && CursorStage(Perform(l, e, now), Advance(c, e).value)
  {
    hide StageAfter, Fits, Disciplined, WriteTrip, Leaky;
    if e.Enqueue? || e.DiscardOutbox? {
      var cmd := if e.Enqueue? then e.command else DeleteTrip(e.key);
      forall k ensures StageAfter(l.log + [cmd], k)
                       == if cmd.Of(k) then NextStage(StageAfter(l.log, k).value, cmd, k) else StageAfter(l.log, k) {
        StageLast(l.log, cmd, k);
      }
      if e.Enqueue? && c.Open? {
        ArrivalShows(c, e);
      }
    }
  }

  /** The record in hand says whether the arrival was sent. */
  lemma ArrivalShows(c: Cursor, e: Effect)
    requires Advance(c, e).Some? && e.Enqueue? && c.Open?
    ensures var after := Advance(c, e).value;
            && after.Open? && after.key == c.key && e.command.Of(c.key) && !e.command.CreateTrip? && !e.command.DeleteTrip?
            && (e.command.UploadGps? || c.rec.arrivedAt.None?)
            && (after.rec.arrivedAt.Some? <==> c.rec.arrivedAt.Some? || IsArrival(e.command, c.key))
  {
    hide Fits, Disciplined;
  }

  lemma StillFresh(l: Link, m: Link, e: Effect, c: Cursor)
    requires Advance(c, e).Some? && GrownFor(l, m, c)
    requires e.Enqueue? ==> FreshDeparture(l.claims, e.command)
    ensures e.Enqueue? ==> FreshDeparture(m.claims, e.command)
  {
  }

  lemma {:induction false} AllEffectsStage(l: Link, effects: seq<Effect>, c: Cursor, now: Time)
    requires InStages(l) && CursorStage(l, c) && AdvanceAll(c, effects).Some? && FreshDepartures(l.claims, effects)
    ensures var m, after := PerformAll(l, effects, now), AdvanceAll(c, effects).value;
            InStages(m) && CursorStage(m, after) && GrownFor(l, m, after)
  {
    hide InStages, CursorStage, Advance, Perform;
    if effects != [] {
      var front, e := effects[..|effects| - 1], effects[|effects| - 1];
      assert effects == front + [e];
      AllEffectsStage(l, front, c, now);
      var m, mid := PerformAll(l, front, now), AdvanceAll(c, front).value;
      assert e in effects;
      StillFresh(l, m, e, mid);
      OneEffectStage(m, e, mid, now);
      OneEffectGrows(l, m, e, mid, now);
    }
  }

  /** A trip in hand has started and has not arrived. */
  ghost predicate Staged(s: System) {
    InStages(s.link) && forall k :: ActiveKey(s.recorder, k) ==>
                          Known(s.link.claims, k) && StageAfter(s.link.log, k) == Some(Live)
  }

  lemma StepStages(s: System, step: Step)
    requires SysInv(s) && MayDo(s, step) && Staged(s)
    ensures Staged(Do(s, step))
  {
    hide Handle, LinkInv, PerformAll, InStages, AdvanceAll;
    if step.Observe? {
      var o := Handle(s.cfg, s.recorder, step.event);
      var c := HandleTracks(s.cfg, s.recorder, step.event, CursorOf(s));
      AllEffectsStage(s.link, o.effects, CursorOf(s), step.now);
    } else {
      SameStages(s, step);
    }
  }

  lemma SameStages(s: System, step: Step)
    requires s.recorder.Shaped() && MayDo(s, step) && !step.Observe? && Staged(s)
    ensures Staged(Do(s, step))
  {
    hide Handle, StageAfter;
  }

  lemma {:induction false} RunStages(states: seq<System>, steps: seq<Step>)
    requires IsRun(states, steps)
    ensures Staged(Last(states))
    decreases |steps|
  {
    hide SysInv, RecordedBy, Do, MayDo, Handle;
    if steps != [] {
      var n := |steps| - 1;
      RunPrefix(states, steps);
      RunStages(states[..n + 1], steps[..n]);
      StepStages(states[n], steps[n]);
    }
  }

  // ---- whole runs --------------------------------------------------------------------------------

  /** Over every run, for every trip: its first command is its create and there is no second one; after its arrival only
      its points are uploaded; after its cancellation nothing comes. */
  lemma CommandsInOrder(states: seq<System>, steps: seq<Step>, k: TripKey, i: nat)
    requires IsRun(states, steps)
    requires i < |Recorded(states, steps)| && Recorded(states, steps)[i].Of(k)
    ensures var cs := Recorded(states, steps);
            && (cs[i].CreateTrip? <==> forall j :: 0 <= j < i ==> !cs[j].Of(k))
            && (IsArrival(cs[i], k) ==> forall j :: i < j < |cs| && cs[j].Of(k) ==> cs[j].UploadGps?)
            && (cs[i] == DeleteTrip(k) ==> forall j :: i < j < |cs| ==> !cs[j].Of(k))
  {
    hide InStages, StageAfter, SysInv, RecordedBy, Do, MayDo, Handle;
    RunStages(states, steps);
    RunHistory(states, steps);
    StageOfLog(Last(states), k);
    InOrderIn(Recorded(states, steps), k, i);
  }

  lemma StageOfLog(s: System, k: TripKey)
    requires Staged(s)
    ensures StageAfter(s.link.log, k).Some?
    ensures (exists c :: c in s.link.log && c.Of(k)) ==> Known(s.link.claims, k)
  {
    StageMeans(s.link.log, k);
  }

  lemma StageAt(cs: seq<Command>, k: TripKey, j: nat)
    requires StageAfter(cs, k).Some? && j < |cs| && cs[j].Of(k)
    ensures StageAfter(cs[..j], k).Some? && NextStage(StageAfter(cs[..j], k).value, cs[j], k).Some?
  {
    StagePrefix(cs, k, j);
    StagePrefix(cs, k, j + 1);
    assert cs[..j + 1] == cs[..j] + [cs[j]];
    StageLast(cs[..j], cs[j], k);
  }

  lemma InOrderIn(cs: seq<Command>, k: TripKey, i: nat)
    requires StageAfter(cs, k).Some? && i < |cs| && cs[i].Of(k)
    ensures cs[i].CreateTrip? <==> forall j :: 0 <= j < i ==> !cs[j].Of(k)
    ensures IsArrival(cs[i], k) ==> forall j :: i < j < |cs| && cs[j].Of(k) ==> cs[j].UploadGps?
    ensures cs[i] == DeleteTrip(k) ==> forall j :: i < j < |cs| ==> !cs[j].Of(k)
  {
    hide StageAfter;
    StageAt(cs, k, i);
    StageMeans(cs[..i], k);
    assert forall j :: 0 <= j < i ==> cs[j] == cs[..i][j];
    forall j | i < j < |cs| && cs[j].Of(k)
      ensures IsArrival(cs[i], k) ==> cs[j].UploadGps?
      ensures cs[i] != DeleteTrip(k)
    {
      StageAt(cs, k, j);
      StageMeans(cs[..j], k);
      assert cs[i] == cs[..j][i];
    }
  }

  /** Over every run: once a trip of which something was recorded is not in hand, nothing more is recorded for it, and it
      does not come back. */
  lemma {:induction false} OverStaysOver(states: seq<System>, steps: seq<Step>, i: nat, j: nat, k: TripKey)
    requires IsRun(states, steps) && i <= j < |steps|
    requires (exists c :: c in states[i].link.log && c.Of(k)) && !ActiveKey(states[i].recorder, k)
    ensures states[j].recorder.Shaped() && !ActiveKey(states[j].recorder, k) && !ActiveKey(states[j + 1].recorder, k)
    ensures forall c :: c in RecordedBy(states[j], steps[j]) ==> !c.Of(k)
    ensures exists c :: c in states[j].link.log && c.Of(k)
    decreases j
  {
    hide InStages, SysInv, RecordedBy, Do, MayDo, Handle;
    RunKeepsInv(states, steps);
    if i < j {
      OverStaysOver(states, steps, i, j - 1, k);
      assert Follows(states[j - 1], steps[j - 1], states[j]);
      StepLogs(states[j - 1], steps[j - 1]);
    }
    PartOfRun(states, steps, j);
    RunStages(states[..j + 1], steps[..j]);
    StageOfLog(states[j], k);
    ShapedOf(states[j]);
    assert Follows(states[j], steps[j], states[j + 1]);
    EndedTripStaysSilent(states[j], steps[j], k);
  }

  lemma PartOfRun(states: seq<System>, steps: seq<Step>, n: nat)
    requires IsRun(states, steps) && n <= |steps|
    ensures IsRun(states[..n + 1], steps[..n]) && Last(states[..n + 1]) == states[n]
  {
    hide Do, MayDo, Handle;
    forall i | 0 <= i < n ensures Follows(states[..n + 1][i], steps[..n][i], states[..n + 1][i + 1]) {
      assert Follows(states[i], steps[i], states[i + 1]);
    }
  }

  /** A step after which the trip is over: it left the recorder's hand, or its arrival or its cancellation was recorded. */
  ghost predicate EndsAt(states: seq<System>, steps: seq<Step>, i: nat, k: TripKey)
    requires i < |steps| && |states| == |steps| + 1 && states[i].recorder.Shaped()
  {
    || (ActiveKey(states[i].recorder, k) && !ActiveKey(states[i + 1].recorder, k))
    || (exists c :: c in RecordedBy(states[i], steps[i]) && (c == DeleteTrip(k) || IsArrival(c, k)))
  }

  /** Over every run: nothing is recorded for a trip after the step that ends it, however it ends. */
  lemma NothingAfterTheEnd(states: seq<System>, steps: seq<Step>, i: nat, j: nat, k: TripKey)
    requires IsRun(states, steps) && i < j < |steps| && states[i].recorder.Shaped()
    requires EndsAt(states, steps, i, k)
    ensures states[j].recorder.Shaped() && !ActiveKey(states[j].recorder, k)
    ensures forall c :: c in RecordedBy(states[j], steps[j]) ==> !c.Of(k)
  {
    hide SysInv, RecordedBy, Do, MayDo, Handle, InStages, StageAfter;
    RunKeepsInv(states, steps);
    PartOfRun(states, steps, i);
    RunStages(states[..i + 1], steps[..i]);
    PartOfRun(states, steps, i + 1);
    RunStages(states[..i + 2], steps[..i + 1]);
    assert Follows(states[i], steps[i], states[i + 1]);
    StepLogs(states[i], steps[i]);
    var before, after := states[i].link.log, states[i + 1].link.log;
    StageOfLog(states[i], k);
    StageOfLog(states[i + 1], k);
    StageMeans(before, k);
    StageMeans(after, k);
    assert !ActiveKey(states[i + 1].recorder, k);
    assert exists c :: c in after && c.Of(k);
    OverStaysOver(states, steps, i + 1, j, k);
  }
}
