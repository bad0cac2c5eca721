/** Over whole runs: what a request that everybody has forgotten does to a trip that is over. */
module PipelineLate {
  import opened Basics
  import opened Commands
  import opened TripServer
  import opened TripViews
  import opened OutboxModel
  import opened Link
  import opened LinkSubmit
  import opened LinkLate
  import opened RecorderModel
  import opened RecorderRules
  import opened RecorderFacts
  import opened Pipeline
  import opened PipelineRuns
  import opened PipelineTrips
  import opened PipelineOrder
  import opened PipelineStuck

  // ---- one step ----------------------------------------------------------------------------------

  lemma {:induction false} EffectsKeepOver(l: Link, effects: seq<Effect>, now: Time, k: TripKey, back: bool)
    requires LinkLate.Over(l, k, back) && DiscardOutbox(k) !in effects
    requires forall e :: e in effects && e.Enqueue? ==> !e.command.Of(k)
    ensures LinkLate.Over(PerformAll(l, effects, now), k, back)
  {
    hide LinkLate.Over, Submit, Cancel;
    if effects != [] {
      var front, e := effects[..|effects| - 1], effects[|effects| - 1];
      assert effects == front + [e];
      EffectsKeepOver(l, front, now, k, back);
      var m := PerformAll(l, front, now);
      match e {
        case Enqueue(c) => SubmitKeepsOver(m, c, now, k, back);
        case DiscardOutbox(x) => CancelKeepsOver(m, x, now, k, back);
        case _ =>
      }
    }
  }

  lemma SilentEffects(effects: seq<Effect>, k: TripKey)
    requires forall c :: c in CommandsOf(effects) ==> !c.Of(k)
    ensures DiscardOutbox(k) !in effects && forall e :: e in effects && e.Enqueue? ==> !e.command.Of(k)
  {
    assert DeleteTrip(k).Of(k);
    if DiscardOutbox(k) in effects {
      DiscardIsRecorded(effects, k);
    }
    forall e | e in effects && e.Enqueue? ensures e.command in CommandsOf(effects) {
      EffectIsRecorded(effects, e);
    }
  }

  /** The step hands over the trip's create. */
  predicate CreateLands(step: Step, k: TripKey) {
    step.DeliverLate? && IsCreateOf(step.orphan.command, k)
  }

  lemma StepKeepsOver(s: System, step: Step, k: TripKey, back: bool)
    requires SysInv(s) && MayDo(s, step) && LinkLate.Over(s.link, k, back)
    requires forall c :: c in RecordedBy(s, step) ==> !c.Of(k)
    ensures LinkLate.Over(Do(s, step).link, k, back || CreateLands(step, k))
  {
    hide LinkLate.Over, Inv, Handle, PerformAll, Matches, CommandsOf, Land, MayArrive, MayAnswer;
    var l := s.link;
    match step
    case Observe(e, now) =>
      SilentEffects(Handle(s.cfg, s.recorder, e).effects, k);
      EffectsKeepOver(l, Handle(s.cfg, s.recorder, e).effects, now, k, back);
    case Reconfigure(_, _) =>
    case SendNext(now) => SendKeepsOver(l, now, k, back);
    case Deliver(id) => ArriveKeepsOver(l, id, k, back);
    case DeliverLate(o) => LandKeepsOver(l, o, k, back);
    case Report(policy, id, o, now) => AnswerKeepsOver(l, policy, id, o, now, k, back);
    case Relaunch => RestartKeepsOver(l, k, back);
    case ExpediteRetries => ExpediteKeepsOver(l, k, back);
    case ResumeSending => QueueKeepsOver(l, Resume(l.outbox), k, back);
    case ClearLetters => QueueKeepsOver(l, ClearDeadLetters(l.outbox), k, back);
  }

  lemma QueueKeepsOver(l: Link, st: OutboxState, k: TripKey, back: bool)
    requires LinkLate.Over(l, k, back) && st.entries == l.outbox.entries
    ensures LinkLate.Over(l.(outbox := st), k, back)
  {
    hide BareOrGone;
  }

  // ---- whole runs --------------------------------------------------------------------------------

  ghost predicate LandsAgain(steps: seq<Step>, from: nat, to: nat, k: TripKey)
    requires from <= to <= |steps|
  {
    exists m :: from <= m < to && CreateLands(steps[m], k)
  }

  lemma {:induction false} OverAlong(states: seq<System>, steps: seq<Step>, j: nat, n: nat, k: TripKey)
    requires IsRun(states, steps) && j <= n <= |steps|
    requires (exists c :: c in states[j].link.log && c.Of(k)) && !ActiveKey(states[j].recorder, k)
    requires LinkLate.Over(states[j].link, k, false)
    ensures LinkLate.Over(states[n].link, k, LandsAgain(steps, j, n, k))
    decreases n
  {
    hide LinkLate.Over, SysInv, RecordedBy, Do, MayDo, Handle, CreateLands;
    if j < n {
      OverAlong(states, steps, j, n - 1, k);
      RunKeepsInv(states, steps);
      OverStaysOver(states, steps, j, n - 1, k);
      assert Follows(states[n - 1], steps[n - 1], states[n]);
      StepKeepsOver(states[n - 1], steps[n - 1], k, LandsAgain(steps, j, n - 1, k));
      assert LandsAgain(steps, j, n, k) <==> LandsAgain(steps, j, n - 1, k) || CreateLands(steps[n - 1], k);
    }
  }

  /** Over every run, for a trip that is over, with nothing of it queued, and that the server does not have, cancelled or
      not: it comes back exactly when a forgotten create of it reaches the server afterwards. It is then the bare trip,
      without arrival, attempts or points, and it stays, as nothing of it is ever queued again. */
  lemma ComesBackExactlyWhen(states: seq<System>, steps: seq<Step>, j: nat, k: TripKey)
    requires IsRun(states, steps) && j <= |steps|
    requires (exists c :: c in states[j].link.log && c.Of(k)) && !ActiveKey(states[j].recorder, k)
    requires Finished(states[j].link, k) && TripOf(states[j].link.server, k).None?
    ensures var l := Last(states).link;
            && Finished(l, k) && RowsOf(l.server, k) == map[]
            && TripOf(l.server, k) == if LandsAgain(steps, j, |steps|, k) then Some(FreshTrip(k, KstDate(k.leftHomeAt)))
                                      else None
  {
    hide Inv, RecordedBy, Do, MayDo, Handle, BareOrGone, TripOf, RowsOf;
    RunKeepsInv(states, steps);
    GoneIsOver(states[j].link, k);
    OverAlong(states, steps, j, |steps|, k);
    OverMeans(Last(states).link.server, k, LandsAgain(steps, j, |steps|, k));
  }

  /** Over every run, with nothing left to send for a trip that was neither cancelled nor given up, and of which nothing
      landed late so far: a forgotten write to its record that lands now leaves the record as it was recorded exactly when
      the record says already what it writes, or the server refuses it, or the row it names is gone. */
  lemma DrainedStaysExactlyWhen(states: seq<System>, steps: seq<Step>, o: Orphan, k: TripKey)
    requires IsRun(states, steps) && Finished(Last(states).link, k)
    requires DeleteTrip(k) !in Recorded(states, steps) && k !in GaveUp(states, steps) && k !in Late(states, steps)
    requires o in Last(states).link.orphans && o.command.TripKeyOf() == Some(k)
    requires o.command.UpdateTrip? || o.command.UpsertAttempt?
    ensures Last(states).recorder.Shaped() && MayDo(Last(states), DeliverLate(o))
    ensures var recorded := Ideal(Recorded(states, steps), k);
            TripOf(Do(Last(states), DeliverLate(o)).link.server, k) == recorded <==>
              || TargetGone(Last(states).link.server, o.request)
              || WriteTrip(recorded, o.command, k) == recorded
              || !Fits(recorded, o.command, k)
  {
    hide Inv, TripOf, RowsOf, OwnRows, Ideal, IdealRows, RecordedBy, Handle, Land, WriteTrip, Fits, GaveUp, Late, Shared;
    DrainedMeansRecorded(states, steps, k);
    RunKeepsInv(states, steps);
    RunHistory(states, steps);
    LateWriteHarmsExactlyWhen(Last(states).link, o, k);
  }
}
