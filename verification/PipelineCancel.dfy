/** What becomes of a cancelled trip: over every run, exactly when it is gone from the server in the end. */
module PipelineCancel {
  import opened Basics
  import opened Commands
  import opened TripViews
  import opened OutboxModel
  import opened Link
  import opened LinkSubmit
  import opened LinkCancel
  import opened RecorderModel
  import opened RecorderRules
  import opened RecorderFacts
  import opened Pipeline
  import opened PipelineRuns
  import opened PipelineTrips
  import opened PipelineOrder
  import L = Link

  // ---- the cancelling event ----------------------------------------------------------------------

  /** Step `i` is the user's cancellation of the trip in hand. */
  predicate CancelsAt(states: seq<System>, steps: seq<Step>, i: nat, k: TripKey) {
    && i < |steps| && |states| == |steps| + 1
    && steps[i].Observe? && ActiveKey(states[i].recorder, k) && Cancels(states[i].recorder, steps[i].event)
  }

  lemma {:induction false} PerformQuiet(l: Link, effects: seq<Effect>, now: Time)
    requires forall e :: e in effects ==> Quiet(e)
    ensures PerformAll(l, effects, now) == l
    ensures CommandsOf(effects) == []
  {
    if effects != [] {
      PerformQuiet(l, effects[..|effects| - 1], now);
      assert effects[|effects| - 1] in effects;
    }
  }

  lemma PerformOne(l: Link, effects: seq<Effect>, e: Effect, now: Time)
    ensures PerformAll(l, effects + [e], now) == Perform(PerformAll(l, effects, now), e, now)
    ensures Quiet(e) || e.TripEnded? ==> CommandsOf(effects + [e]) == CommandsOf(effects)
    ensures e.DiscardOutbox? ==> CommandsOf(effects + [e]) == CommandsOf(effects) + [DeleteTrip(e.key)]
  {
    assert (effects + [e])[..|effects|] == effects;
  }

  /** The event that cancels a trip does to the link what cancelling means, and nothing else. */
  lemma CancelStep(s: System, step: Step, k: TripKey)
    requires s.recorder.Shaped() && MayDo(s, step)
    requires step.Observe? && ActiveKey(s.recorder, k) && Cancels(s.recorder, step.event)
    ensures Do(s, step).link == Cancel(s.link, k, step.now) && !ActiveKey(Do(s, step).recorder, k)
    ensures RecordedBy(s, step) == [DeleteTrip(k)]
  {
    hide Perform, CommandsOf, PerformAll, DismissWaiting, Quiet, Leaky;
    var dismiss := DismissWaiting(s.recorder.trip.value.legs);
    var a := dismiss + [DiscardOutbox(k)];
    var b := a + [StopLocationUpdates];
    assert Handle(s.cfg, s.recorder, step.event).effects == b + [TripEnded(k)];
    DismissalsAreQuiet(s.recorder.trip.value.legs);
    PerformQuiet(s.link, dismiss, step.now);
    PerformOne(s.link, dismiss, DiscardOutbox(k), step.now);
    PerformOne(s.link, a, StopLocationUpdates, step.now);
    PerformOne(s.link, b, TripEnded(k), step.now);
    CancelsOnly(s.link, k, step.now);
  }

  lemma CancelsOnly(l: Link, k: TripKey, now: Time)
    ensures Perform(Perform(Perform(l, DiscardOutbox(k), now), StopLocationUpdates, now), TripEnded(k), now)
            == Cancel(l, k, now)
    ensures Quiet(StopLocationUpdates)
  {
  }

  // ---- afterwards --------------------------------------------------------------------------------

  lemma {:induction false} OthersLeak(l: Link, effects: seq<Effect>, now: Time, k: TripKey)
    requires DiscardOutbox(k) !in effects
    ensures k in PerformAll(l, effects, now).leaked <==> k in l.leaked
  {
    if effects != [] {
      OthersLeak(l, effects[..|effects| - 1], now, k);
      assert effects[|effects| - 1] in effects;
    }
  }

  lemma SilentKeepsLeak(s: System, step: Step, k: TripKey)
    requires s.recorder.Shaped() && MayDo(s, step) && forall c :: c in RecordedBy(s, step) ==> !c.Of(k)
    ensures k in Do(s, step).link.leaked <==> k in s.link.leaked
  {
    hide Handle;
    if step.Observe? {
      var effects := Handle(s.cfg, s.recorder, step.event).effects;
      var c := DeleteTrip(k);
      assert c.Of(k);
      if DiscardOutbox(k) in effects {
        DiscardIsRecorded(effects, k);
      }
      OthersLeak(s.link, effects, step.now, k);
    }
  }

  lemma FirstLeak(s: System, step: Step, k: TripKey)
    requires SysInv(s) && MayDo(s, step)
    requires step.Observe? && ActiveKey(s.recorder, k) && Cancels(s.recorder, step.event)
    ensures k in Do(s, step).link.leaked <==> Leaky(s.link, k)
    ensures DeleteTrip(k) in Do(s, step).link.log && !ActiveKey(Do(s, step).recorder, k)
    ensures Ideal(s.link.log, k).Some?
  {
    hide Inv, Do, MayDo, Handle, Leaky, Discard, Matches;
    CancelStep(s, step, k);
  }

  lemma {:induction false} LeakStays(states: seq<System>, steps: seq<Step>, i: nat, j: nat, k: TripKey)
    requires IsRun(states, steps) && CancelsAt(states, steps, i, k) && i < j <= |steps|
    ensures k in states[j].link.leaked <==> Leaky(states[i].link, k)
    decreases j
  {
    hide SysInv, RecordedBy, Do, MayDo, Handle, Leaky, Cancels;
    RunKeepsInv(states, steps);
    assert Follows(states[i], steps[i], states[i + 1]);
    FirstLeak(states[i], steps[i], k);
    if i + 1 < j {
      LeakStays(states, steps, i, j - 1, k);
      assert Follows(states[j - 1], steps[j - 1], states[j]);
      var c := DeleteTrip(k);
      assert c in states[i + 1].link.log && c.Of(k);
      OverStaysOver(states, steps, i + 1, j - 1, k);
      SilentKeepsLeak(states[j - 1], steps[j - 1], k);
    }
  }

  lemma GoneUnlessLeaked(l: Link, k: TripKey)
    requires LinkInv(l) && Finished(l, k) && DeleteTrip(k) in l.log && k !in l.late
    ensures TripOf(l.server, k).None? <==> k !in l.leaked && k !in l.abandoned
    ensures TripOf(l.server, k).None? ==> RowsOf(l.server, k) == map[] && k !in l.outbox.tripIds
  {
    hide Inv, TripOf, RowsOf, Ideal, IdealRows, Converges, OwnRows, Shared;
    if k in l.abandoned {
      StrandedOf(l, k);
    } else {
      KeyOf(l, k);
      NoTrip(l.server, k);
      if k !in l.leaked {
        DrainedConverges(l, k);
        NotBorne(l, k);
      }
    }
  }

  lemma NotBorne(l: Link, k: TripKey)
    requires IdsAgree(l, k) && Finished(l, k) && TripOf(l.server, k).None?
    ensures k !in l.outbox.tripIds
  {
    if k in l.outbox.tripIds {
      NoTrip(l.server, k);
    }
  }

  // ---- whole runs --------------------------------------------------------------------------------

  /** Over every run, once nothing of a cancelled trip is queued any more: the trip, its attempts and its points are gone
      from the server and its id is forgotten, exactly when its create's answer was never unreadable and, just before the
      cancellation, the outbox knew the id, or saw that the create had been out, or the server did not have the trip. This
      is of trips of which nothing landed late; `ComesBackExactlyWhen` is about what may land later. */
  lemma CancelledIsGoneExactlyWhen(states: seq<System>, steps: seq<Step>, i: nat, k: TripKey)
    requires IsRun(states, steps) && CancelsAt(states, steps, i, k) && Finished(Last(states).link, k)
    requires k !in Late(states, steps)
    ensures var before, after := states[i].link, Last(states).link;
            TripOf(after.server, k).None? <==>
              && k !in GaveUp(states, steps)
              && (|| k in before.outbox.tripIds || CreateMayHaveLanded(before.outbox.entries, k)
                  || TripOf(before.server, k).None?)
    ensures var l := Last(states).link;
            TripOf(l.server, k).None? ==> RowsOf(l.server, k) == map[] && k !in l.outbox.tripIds
  {
    hide Inv, TripOf, RowsOf, Do, MayDo, Handle, GaveUp, RecordedBy, Cancels, CreateMayHaveLanded;
    RunKeepsInv(states, steps);
    RunHistory(states, steps);
    LeakStays(states, steps, i, |steps|, k);
    CancelIsLogged(states, steps, i, k);
    GoneUnlessLeaked(Last(states).link, k);
  }

  lemma CancelIsLogged(states: seq<System>, steps: seq<Step>, i: nat, k: TripKey)
    requires IsRun(states, steps) && CancelsAt(states, steps, i, k)
    ensures DeleteTrip(k) in Last(states).link.log
  {
    hide SysInv, RecordedBy, Do, MayDo, Handle, Cancels;
    RunKeepsInv(states, steps);
    assert Follows(states[i], steps[i], states[i + 1]);
    FirstLeak(states[i], steps[i], k);
    StaysLogged(states, steps, i + 1, |steps|, DeleteTrip(k));
  }

  lemma {:induction false} StaysLogged(states: seq<System>, steps: seq<Step>, i: nat, j: nat, c: Command)
    requires IsRun(states, steps) && i <= j <= |steps| && c in states[i].link.log
    ensures c in states[j].link.log
    decreases j
  {
    hide SysInv, RecordedBy, Do, MayDo, Handle;
    if i < j {
      StaysLogged(states, steps, i, j - 1, c);
      assert Follows(states[j - 1], steps[j - 1], states[j]);
      StepLogs(states[j - 1], steps[j - 1]);
    }
  }

  /** What the outbox shows just before the cancellation: it is safe when the id is known or the create is seen to have
      been out; otherwise the create is queued as if never sent, and only a relaunch can have made that a lie. */
  lemma CancelSeenFromOutbox(states: seq<System>, steps: seq<Step>, i: nat, k: TripKey)
    requires IsRun(states, steps) && CancelsAt(states, steps, i, k) && Finished(Last(states).link, k)
    requires k !in GaveUp(states, steps) && k !in Late(states, steps)
    ensures var st := states[i].link.outbox;
            if k in st.tripIds || CreateMayHaveLanded(st.entries, k) then TripOf(Last(states).link.server, k).None?
            else exists e :: e in st.entries && IsCreateOf(e.command, k) && !e.inFlight && e.failures == 0
    ensures TripOf(Last(states).link.server, k).Some? ==>
              i < |steps| && k in Interrupted(states[..i + 1], steps[..i])
  {
    hide Inv, TripOf, RowsOf, Do, MayDo, Handle, GaveUp, Interrupted, RecordedBy, Cancels;
    CancelledIsGoneExactlyWhen(states, steps, i, k);
    RunKeepsInv(states, steps);
    var l := states[i].link;
    KeptSoFar(states, steps, i, k);
    assert Follows(states[i], steps[i], states[i + 1]);
    FirstLeak(states[i], steps[i], k);
    if k !in l.outbox.tripIds && !CreateMayHaveLanded(l.outbox.entries, k) {
      OpenHasCreate(l, k);
      var e :| e in l.outbox.entries && IsCreateOf(e.command, k);
      assert !e.inFlight && e.failures == 0;
      if TripOf(l.server, k).Some? {
        LeakIsInterrupted(l, k);
      }
    }
  }

  lemma KeptSoFar(states: seq<System>, steps: seq<Step>, i: nat, k: TripKey)
    requires IsRun(states, steps) && i <= |steps| && k !in GaveUp(states, steps) && k !in Late(states, steps)
    ensures k !in states[i].link.abandoned && k !in states[i].link.late
    ensures states[i].link.interrupted == Interrupted(states[..i + 1], steps[..i])
  {
    hide SysInv, Do, MayDo, Handle, GivenUpBy, LateBy, Interrupted;
    PartOfRun(states, steps, i);
    RunHistory(states[..i + 1], steps[..i]);
    HistoryGrows(states, steps, i);
  }

  lemma {:induction false} HistoryGrows(states: seq<System>, steps: seq<Step>, i: nat)
    requires |states| == |steps| + 1 && i <= |steps|
    ensures GaveUp(states[..i + 1], steps[..i]) <= GaveUp(states, steps)
    ensures Late(states[..i + 1], steps[..i]) <= Late(states, steps)
    decreases |steps|
  {
    if i == |steps| {
      assert states[..i + 1] == states && steps[..i] == steps;
    } else {
      var n := |steps| - 1;
      HistoryGrows(states[..n + 1], steps[..n], i);
      assert states[..n + 1][..i + 1] == states[..i + 1] && steps[..n][..i] == steps[..i];
    }
  }
}
