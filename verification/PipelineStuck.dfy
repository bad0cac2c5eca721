/** Which commands a run leaves stuck: those recorded for a trip after its create got an unreadable answer. */
module PipelineStuck {
  import opened Basics
  import opened Commands
  import opened TripViews
  import opened OutboxModel
  import opened Link
  import opened RecorderModel
  import opened RecorderRules
  import opened RecorderFacts
  import opened Pipeline
  import opened PipelineRuns
  import opened PipelineTrips
  import opened OutboxStuck
  import LinkNetwork
  import LinkGiveUp
  import LinkCancel

  /** Whether something of a stranded trip waits after the commands: recording adds to it, cancelling drops it. */
  function Waits(before: bool, cs: seq<Command>, k: TripKey): bool {
    if cs == [] then before
    else
      var c := cs[|cs| - 1];
      if c == DeleteTrip(k) then false else c.Of(k) || Waits(before, cs[..|cs| - 1], k)
  }

  /** The trip was given up, and since then something was recorded for it and it was not cancelled. */
  ghost function StuckFor(states: seq<System>, steps: seq<Step>, k: TripKey): bool
    requires Path(states, steps)
    decreases |steps|
  {
    if steps == [] then false
    else
      var n := |steps| - 1;
      assert forall i :: 0 <= i < n ==> Follows(states[i], steps[i], states[i + 1]);
      assert Follows(states[n], steps[n], states[n + 1]);
      k in GaveUp(states[..n + 1], steps[..n])
      && Waits(StuckFor(states[..n + 1], steps[..n], k), RecordedBy(states[n], steps[n]), k)
  }

  // ---- one event ---------------------------------------------------------------------------------

  /** What is asked for in the hand of a trip: no create, and no empty upload. */
  lemma {:induction false} CommandsInHand(c: Cursor, effects: seq<Effect>, key: TripKey)
    requires Within(c, key) && AdvanceAll(c, effects).Some?
    ensures Within(AdvanceAll(c, effects).value, key)
    ensures forall e :: e in effects && e.Enqueue? ==> !e.command.CreateTrip? && !e.command.DeleteTrip? && Substantial(e.command)
  {
    if effects != [] {
      var front, e := effects[..|effects| - 1], effects[|effects| - 1];
      assert effects == front + [e];
      CommandsInHand(c, front, key);
      OwnEffect(AdvanceAll(c, front).value, e, key);
      InHand(AdvanceAll(c, front).value, e, key);
    }
  }

  lemma InHand(c: Cursor, e: Effect, key: TripKey)
    requires Within(c, key) && Advance(c, e).Some?
    ensures e.Enqueue? ==> !e.command.CreateTrip? && !e.command.DeleteTrip? && Substantial(e.command)
  {
    hide Fits, Disciplined;
  }

  lemma {:induction false} EffectsWait(l: Link, effects: seq<Effect>, now: Time, k: TripKey)
    requires Strands(l.outbox, k) && !Deleting(l.outbox.entries, k)
    requires forall e :: e in effects && e.Enqueue? && e.command.Of(k) ==>
                           !e.command.CreateTrip? && !e.command.DeleteTrip? && Substantial(e.command)
    ensures var st := PerformAll(l, effects, now).outbox;
            && Strands(st, k) && !Deleting(st.entries, k)
            && AnyOf(st.entries, k) == Waits(AnyOf(l.outbox.entries, k), CommandsOf(effects), k)
  {
    hide Strands, AnyOf, Deleting, Perform;
    if effects != [] {
      var front, e := effects[..|effects| - 1], effects[|effects| - 1];
      assert effects == front + [e];
      EffectsWait(l, front, now, k);
      OneEffectWaits(PerformAll(l, front, now), e, now, k);
      WaitsNext(AnyOf(l.outbox.entries, k), CommandsOf(front), e, k);
    }
  }

  lemma WaitsNext(before: bool, front: seq<Command>, e: Effect, k: TripKey)
    ensures e.Enqueue? ==> Waits(before, front + [e.command], k)
                           == (e.command != DeleteTrip(k) && (e.command.Of(k) || Waits(before, front, k)))
    ensures e.DiscardOutbox? ==> Waits(before, front + [DeleteTrip(e.key)], k) == (e.key != k && Waits(before, front, k))
    ensures front + [] == front
  {
    if e.Enqueue? {
      assert (front + [e.command])[..|front|] == front;
    }
    if e.DiscardOutbox? {
      assert (front + [DeleteTrip(e.key)])[..|front|] == front;
    }
  }

  lemma OneEffectWaits(l: Link, e: Effect, now: Time, k: TripKey)
    requires Strands(l.outbox, k) && !Deleting(l.outbox.entries, k)
    requires e.Enqueue? && e.command.Of(k) ==>
               !e.command.CreateTrip? && !e.command.DeleteTrip? && Substantial(e.command)
    ensures var st := Perform(l, e, now).outbox;
            && Strands(st, k) && !Deleting(st.entries, k)
            && AnyOf(st.entries, k) == (if e.Enqueue? then e.command.Of(k) || AnyOf(l.outbox.entries, k)
                                        else if e.DiscardOutbox? then e.key != k && AnyOf(l.outbox.entries, k)
                                        else AnyOf(l.outbox.entries, k))
  {
    hide Strands, AnyOf, Leaky, Discard, OutboxModel.Enqueue;
    match e
    case Enqueue(c) =>
      PutStrands(l.outbox, c, now, k);
      PutNoDelete(l.outbox, c, now, k);
    case DiscardOutbox(x) =>
      WithdrawStrands(l.outbox, x, now, k);
      WithdrawNoDelete(l.outbox, x, now, k);
    case _ =>
  }

  lemma PutNoDelete(st: OutboxState, c: Command, now: Time, k: TripKey)
    requires !Deleting(st.entries, k) && c != DeleteTrip(k)
    ensures !Deleting(OutboxModel.Enqueue(st, c, now).entries, k)
  {
    hide MergeTarget, Merged;
    if c.UploadGps? {
      BatchesOf(st, c.owner, c.points, now, k);
      var es' := AppendAll(st, c.owner, c.points, now).entries;
      forall i | 0 <= i < |es'| ensures es'[i].command != DeleteTrip(k) {
        if es'[i] in st.entries {
          var j :| 0 <= j < |st.entries| && st.entries[j] == es'[i];
        }
      }
    } else if MergeTarget(st.entries, c) >= 0 {
      MergedKind(st.entries[MergeTarget(st.entries, c)].command, c);
    }
  }

  lemma WithdrawNoDelete(st: OutboxState, x: TripKey, now: Time, k: TripKey)
    requires Strands(st, k) && !Deleting(st.entries, k)
    ensures !Deleting(Discard(st, x, now).entries, k)
  {
    hide Remaining;
    var landed := CreateMayHaveLanded(st.entries, x);
    LinkCancel.RemainingMembers(st.entries, x, landed);
    var es' := Discard(st, x, now).entries;
    var r := Remaining(st.entries, x, landed);
    forall i | 0 <= i < |r| ensures r[i].command != DeleteTrip(k) {
      assert r[i] in r;
      var j :| 0 <= j < |st.entries| && st.entries[j] == r[i];
    }
    if x == k {
      forall i | 0 <= i < |st.entries| ensures !IsCreateOf(st.entries[i].command, k) {
        assert st.entries[i] in st.entries;
      }
    }
  }

  // ---- one step ----------------------------------------------------------------------------------

  lemma StrandedStrands(l: Link, k: TripKey)
    requires Inv(l) && k in l.abandoned
    ensures Strands(l.outbox, k) && !Deleting(l.outbox.entries, k) && Known(l.claims, k)
  {
    hide Inv;
    AbandonedHasNoId(l, k);
    forall e | e in l.outbox.entries && e.command.Of(k) ensures !e.inFlight {
      if Tried(e) {
        TriedIsKept(l, e, k);
      }
    }
    forall i | 0 <= i < |l.outbox.entries| ensures l.outbox.entries[i].command != DeleteTrip(k) {
      assert l.outbox.entries[i] in l.outbox.entries;
    }
  }

  /** An event asks for no create of a known trip. */
  lemma EventCommands(s: System, e: Event, k: TripKey)
    requires SysInv(s) && Plausible(s, e) && Known(s.link.claims, k)
    ensures forall x :: x in Handle(s.cfg, s.recorder, e).effects && x.Enqueue? && x.command.Of(k) ==>
                          !x.command.CreateTrip? && !x.command.DeleteTrip? && Substantial(x.command)
  {
    hide Handle, Inv, Matches, PerformAll, AdvanceAll;
    var o := Handle(s.cfg, s.recorder, e);
    var c := HandleTracks(s.cfg, s.recorder, e, CursorOf(s));
    if ActiveKey(s.recorder, k) {
      CommandsInHand(CursorOf(s), o.effects, k);
    } else {
      EndedTripStaysSilent(s, Observe(e, 0), k);
      forall x | x in o.effects && x.Enqueue? ensures x.command in CommandsOf(o.effects) {
        EffectIsRecorded(o.effects, x);
      }
    }
  }

  lemma {:induction false} EffectIsRecorded(effects: seq<Effect>, e: Effect)
    requires e in effects && e.Enqueue?
    ensures e.command in CommandsOf(effects)
  {
    var front := effects[..|effects| - 1];
    if e != effects[|effects| - 1] {
      assert effects == front + [effects[|effects| - 1]];
      EffectIsRecorded(front, e);
    }
  }

  lemma StepWaits(s: System, step: Step, k: TripKey)
    requires SysInv(s) && MayDo(s, step) && k in s.link.abandoned
    ensures AnyOf(Do(s, step).link.outbox.entries, k) == Waits(AnyOf(s.link.outbox.entries, k), RecordedBy(s, step), k)
  {
    hide Handle, Inv, Matches, PerformAll, Strands, AnyOf, Complete, Next, Deleting;
    StrandedStrands(s.link, k);
    match step
    case Observe(e, now) =>
      EventCommands(s, e, k);
      EffectsWait(s.link, Handle(s.cfg, s.recorder, e).effects, now, k);
    case SendNext(now) =>
      SendIsPick(s.link, now);
      PickStrands(s.link.outbox, now, k);
    case Report(policy, id, o, now) =>
      var _ := LinkNetwork.InTheAir(s.link, id);
      LearnStrands(policy, s.link.outbox, id, o, now, k);
    case Relaunch => FlagsStrand(s.link.outbox, Relaunched(s.link.outbox), k);
    case ExpediteRetries => FlagsStrand(s.link.outbox, Expedite(s.link.outbox), k);
    case ResumeSending => SameQueue(s.link.outbox, Resume(s.link.outbox), k);
    case ClearLetters => SameQueue(s.link.outbox, ClearDeadLetters(s.link.outbox), k);
    case _ =>
  }

  lemma SendIsPick(l: Link, now: Time)
    ensures Send(l, now).outbox == Next(l.outbox, now).0
  {
  }

  /** Giving up drops everything queued for the trip. */
  lemma GivingUpDrops(s: System, step: Step, k: TripKey)
    requires SysInv(s) && MayDo(s, step) && k in GivenUpBy(s, step)
    ensures k !in s.link.abandoned && !AnyOf(Do(s, step).link.outbox.entries, k)
  {
    hide Inv, Matches, Handle, Complete, Landed;
    var l := s.link;
    var i, how := LinkNetwork.AnswerShape(l, step.policy, step.id, step.outcome, step.now);
    var j := IndexOf(l.outbox.entries, step.id);
    CreateIsFirst(l, l.outbox.entries[j], k);
    LinkGiveUp.WithoutMembers(l.outbox.entries, k);
    var n := LinkNetwork.InTheAir(l, step.id);
    assert l.outbox.entries[i] in l.outbox.entries && l.outbox.entries[j] in l.outbox.entries;
  }

  // ---- whole runs --------------------------------------------------------------------------------

  /** Over every run: commands of a given-up trip are queued exactly when something was recorded for it after it was given
      up and it was not cancelled since. */
  lemma {:induction false} StuckExactlyWhen(states: seq<System>, steps: seq<Step>, k: TripKey)
    requires IsRun(states, steps)
    ensures k in GaveUp(states, steps) && AnyOf(Last(states).link.outbox.entries, k) <==> StuckFor(states, steps, k)
    decreases |steps|
  {
    hide SysInv, RecordedBy, Do, MayDo, Handle, AnyOf, GivenUpBy, Waits;
    if steps != [] {
      var n := |steps| - 1;
      RunPrefix(states, steps);
      StuckExactlyWhen(states[..n + 1], steps[..n], k);
      RunHistory(states[..n + 1], steps[..n]);
      if k in states[n].link.abandoned {
        StepWaits(states[n], steps[n], k);
      } else if k in GivenUpBy(states[n], steps[n]) {
        GivingUpDrops(states[n], steps[n], k);
      }
    }
  }

  /** No lost wake-up, by what happened: with something queued, nothing paused and nothing on its way, the outbox goes on
      unless every command queued was recorded for a trip after its create got an unreadable answer. */
  lemma SleepsExactlyWhen(states: seq<System>, steps: seq<Step>, now: Time)
    requires IsRun(states, steps)
    requires var st := Last(states).link.outbox; !st.paused && forall e :: e in st.entries ==> !e.inFlight
    ensures var st := Last(states).link.outbox;
            !WakesUp(st, now) <==> forall e :: e in st.entries ==> StuckFor(states, steps, TripOfEntry(e))
  {
    hide Inv, Do, MayDo, Handle, GaveUp, StuckFor, WakesUp, SysInv;
    NoLostWakeUp(states, steps, now);
    RunKeepsInv(states, steps);
    ShapedOf(Last(states));
    var l := Last(states).link;
    forall e | e in l.outbox.entries
      ensures Kept(GaveUp(states, steps), e) <==> !StuckFor(states, steps, TripOfEntry(e))
    {
      EntryOf(l, e);
      StuckExactlyWhen(states, steps, TripOfEntry(e));
      assert e.command.Of(TripOfEntry(e));
    }
  }

  /** An unreadable answer harms nothing that is recorded later unless the trip is still being recorded when it comes. */
  lemma {:induction false} LateGiveUpIsHarmless(states: seq<System>, steps: seq<Step>, i: nat, k: TripKey)
    requires IsRun(states, steps) && i < |steps|
    requires k in GivenUpBy(states[i], steps[i]) && !ActiveKey(states[i].recorder, k)
    ensures !StuckFor(states, steps, k) && !ActiveKey(Last(states).recorder, k) && k in GaveUp(states, steps)
    decreases |steps|
  {
    hide SysInv, RecordedBy, Do, MayDo, Handle, AnyOf, GivenUpBy, Waits;
    var n := |steps| - 1;
    RunPrefix(states, steps);
    RunHistory(states[..n + 1], steps[..n]);
    if i == n {
      GivingUpDrops(states[n], steps[n], k);
      GiveUpEndsNothing(states[n], steps[n], k);
    } else {
      LateGiveUpIsHarmless(states[..n + 1], steps[..n], i, k);
      ShapedOf(states[n]);
      StrandedStrands(states[n].link, k);
      EndedTripStaysSilent(states[n], steps[n], k);
      NothingWaits(RecordedBy(states[n], steps[n]), k);
    }
  }

  lemma GiveUpEndsNothing(s: System, step: Step, k: TripKey)
    requires s.recorder.Shaped() && MayDo(s, step) && k in GivenUpBy(s, step) && !ActiveKey(s.recorder, k)
    ensures !ActiveKey(Do(s, step).recorder, k)
  {
  }

  lemma {:induction false} NothingWaits(cs: seq<Command>, k: TripKey)
    requires forall c :: c in cs ==> !c.Of(k)
    ensures !Waits(false, cs, k)
  {
    if cs != [] {
      NothingWaits(cs[..|cs| - 1], k);
      assert cs[|cs| - 1] in cs;
    }
  }
}
