/** What holds over every run of the whole machine. */
module PipelineRuns {
  import opened Basics
  import opened Commands
  import opened TripServer
  import opened CommandFold
  import opened TripViews
  import opened OutboxModel
  import opened Link
  import opened Routes
  import opened RecorderModel
  import opened RecorderRules
  import opened RecorderFacts
  import opened Pipeline
  import L = Link
  import LinkNetwork
  import LinkServe
  import opened LinkGiveUp
  import opened LinkCancel

  /** States and the steps between them. */
  ghost predicate Path(states: seq<System>, steps: seq<Step>) {
    && |states| == |steps| + 1
    && forall i :: 0 <= i < |steps| ==> Follows(states[i], steps[i], states[i + 1])
  }

  ghost predicate Follows(s: System, step: Step, s': System) {
    s.recorder.Shaped() && MayDo(s, step) && s' == Do(s, step)
  }

  /** A path from a fresh install. */
  ghost predicate IsRun(states: seq<System>, steps: seq<Step>) {
    Path(states, steps) && Sound(states[0].cfg) && states[0] == Boot(states[0].cfg)
  }

  function Last(states: seq<System>): System
    requires states != []
  {
    states[|states| - 1]
  }

  lemma {:induction false} PathKeepsInv(states: seq<System>, steps: seq<Step>)
    requires Path(states, steps) && SysInv(states[0])
    ensures forall i :: 0 <= i < |states| ==> SysInv(states[i])
    decreases |steps|
  {
    hide SysInv, Do, MayDo, Handle;
    if steps != [] {
      var n := |steps| - 1;
      PathKeepsInv(states[..n + 1], steps[..n]);
      assert states[..n + 1][n] == states[n];
      assert Follows(states[n], steps[n], states[n + 1]);
      StepKeepsInv(states[n], steps[n]);
      forall i | 0 <= i < |states| ensures SysInv(states[i]) {
        if i <= n {
          assert states[..n + 1][i] == states[i];
        }
      }
    }
  }

  lemma RunKeepsInv(states: seq<System>, steps: seq<Step>)
    requires IsRun(states, steps)
    ensures forall i :: 0 <= i < |states| ==> SysInv(states[i])
  {
    hide SysInv, Do, MayDo, Handle;
    BootsWell(states[0].cfg);
    PathKeepsInv(states, steps);
  }

  // ---- history -----------------------------------------------------------------------------------

  function RecordedBy(s: System, step: Step): seq<Command>
    requires s.recorder.Shaped()
  {
    if step.Observe? then CommandsOf(Handle(s.cfg, s.recorder, step.event).effects) else []
  }

  /** Every command the recorder asked for over the run, each once, in order. */
  ghost function Recorded(states: seq<System>, steps: seq<Step>): seq<Command>
    requires Path(states, steps)
    decreases |steps|
  {
    if steps == [] then []
    else
      var n := |steps| - 1;
      assert forall i :: 0 <= i < n ==> Follows(states[i], steps[i], states[i + 1]);
      assert Follows(states[n], steps[n], states[n + 1]);
      Recorded(states[..n + 1], steps[..n]) + RecordedBy(states[n], steps[n])
  }

  lemma StepLogs(s: System, step: Step)
    requires s.recorder.Shaped() && MayDo(s, step)
    ensures Do(s, step).link.log == s.link.log + RecordedBy(s, step)
  {
    hide Handle;
    if step.Observe? {
      PerformLogs(s.link, Handle(s.cfg, s.recorder, step.event).effects, step.now);
    } else {
      assert s.link.log + [] == s.link.log;
    }
  }

  lemma {:induction false} LogIsRecorded(states: seq<System>, steps: seq<Step>)
    requires Path(states, steps)
    ensures Last(states).link.log == states[0].link.log + Recorded(states, steps)
    decreases |steps|
  {
    hide RecordedBy, Do, MayDo, Handle;
    if steps == [] {
      assert states[0].link.log + [] == states[0].link.log;
    } else {
      var n := |steps| - 1;
      LogIsRecorded(states[..n + 1], steps[..n]);
      assert Follows(states[n], steps[n], states[n + 1]);
      StepLogs(states[n], steps[n]);
    }
  }

  /** The last step of a run. */
  lemma RunPrefix(states: seq<System>, steps: seq<Step>)
    requires IsRun(states, steps) && steps != []
    ensures var n := |steps| - 1;
            && IsRun(states[..n + 1], steps[..n])
            && SysInv(states[n]) && Follows(states[n], steps[n], states[n + 1])
            && Last(states[..n + 1]) == states[n]
            && Recorded(states, steps) == Recorded(states[..n + 1], steps[..n]) + RecordedBy(states[n], steps[n])
  {
    hide SysInv, RecordedBy, Do, MayDo, Handle;
    var n := |steps| - 1;
    RunKeepsInv(states, steps);
    assert forall i :: 0 <= i < n ==> Follows(states[i], steps[i], states[i + 1]);
    assert Follows(states[n], steps[n], states[n + 1]);
  }

  // ---- what a run did ----------------------------------------------------------------------------

  /** The instants sampled by the uploads of a history, each with the trips that sampled it. */
  function SampledIn(log: seq<Command>): Samples {
    if log == [] then {} else AddSamples(SampledIn(log[..|log| - 1]), log[|log| - 1])
  }

  function GivenUpBy(s: System, step: Step): set<TripKey> {
    if step.Report? then GivesUp(s.link.outbox.entries, step.id, step.outcome) else {}
  }

  /** The trip one of whose commands the step makes the outbox give up because the server refused it. */
  function RefusedBy(s: System, step: Step): set<TripKey> {
    if step.Report? then Refuses(s.link.outbox.entries, step.policy, step.id, step.outcome) else {}
  }

  ghost function LateBy(s: System, step: Step): set<TripKey> {
    if step.DeliverLate? then LandsLate(s.link, step.orphan) else {}
  }

  function InterruptedBy(s: System, step: Step): set<TripKey> {
    if step.Relaunch? then CreatesOnTheWay(s.link.outbox.entries) else {}
  }

  /** The trips whose create got an answer that could not be read. */
  function GaveUp(states: seq<System>, steps: seq<Step>): set<TripKey>
    requires |states| == |steps| + 1
    decreases |steps|
  {
    if steps == [] then {}
    else
      var n := |steps| - 1;
      GaveUp(states[..n + 1], steps[..n]) + GivenUpBy(states[n], steps[n])
  }

  /** The trips whose create was on its way during a relaunch. */
  function Interrupted(states: seq<System>, steps: seq<Step>): set<TripKey>
    requires |states| == |steps| + 1
    decreases |steps|
  {
    if steps == [] then {}
    else
      var n := |steps| - 1;
      Interrupted(states[..n + 1], steps[..n]) + InterruptedBy(states[n], steps[n])
  }

  /** The trips of which a request changed the server when it was no longer due: nobody waited for its answer, and the
      outbox would not have sent it again. */
  ghost function Late(states: seq<System>, steps: seq<Step>): set<TripKey>
    requires |states| == |steps| + 1
    decreases |steps|
  {
    if steps == [] then {}
    else
      var n := |steps| - 1;
      Late(states[..n + 1], steps[..n]) + LateBy(states[n], steps[n])
  }

  lemma SampledLast(log: seq<Command>, c: Command)
    ensures SampledIn(log + [c]) == AddSamples(SampledIn(log), c)
  {
    assert (log + [c])[..|log|] == log;
  }

  lemma {:induction false} PerformHistory(l: Link, effects: seq<Effect>, now: Time)
    requires l.samples == SampledIn(l.log)
    ensures var m := PerformAll(l, effects, now);
            && m.samples == SampledIn(m.log) && m.abandoned == l.abandoned && m.interrupted == l.interrupted
            && m.late == l.late && m.outbox.deadLetters == l.outbox.deadLetters
  {
    hide Perform;
    if effects != [] {
      PerformHistory(l, effects[..|effects| - 1], now);
      OneHistory(PerformAll(l, effects[..|effects| - 1], now), effects[|effects| - 1], now);
    }
  }

  lemma OneHistory(l: Link, e: Effect, now: Time)
    requires l.samples == SampledIn(l.log)
    ensures var m := Perform(l, e, now);
            && m.samples == SampledIn(m.log) && m.abandoned == l.abandoned && m.interrupted == l.interrupted
            && m.late == l.late && m.outbox.deadLetters == l.outbox.deadLetters
  {
    hide SampledIn, Leaky, Remaining, CreateMayHaveLanded, Deleting;
    match e
    case Enqueue(c) =>
      SampledLast(l.log, c);
      EnqueueLetters(l.outbox, c, now);
    case DiscardOutbox(k) => SampledLast(l.log, DeleteTrip(k));
    case _ =>
  }

  lemma EnqueueLetters(st: OutboxState, c: Command, now: Time)
    ensures OutboxModel.Enqueue(st, c, now).deadLetters == st.deadLetters
  {
    if c.UploadGps? {
      AppendLetters(st, c.owner, c.points, now);
    }
  }

  lemma {:induction false} AppendLetters(st: OutboxState, owner: Option<TripKey>, points: seq<GpsPoint>, now: Time)
    ensures AppendAll(st, owner, points, now).deadLetters == st.deadLetters
    decreases |points|
  {
    if points != [] {
      var n := if |points| < MAX_GPS_POINTS then |points| else MAX_GPS_POINTS;
      AppendLetters(Append(st, UploadGps(owner, points[..n]), now), owner, points[n..], now);
    }
  }

  lemma StepHistory(s: System, step: Step)
    requires s.recorder.Shaped() && MayDo(s, step) && s.link.samples == SampledIn(s.link.log)
    ensures var l := Do(s, step).link;
            && l.samples == SampledIn(l.log) && l.abandoned == s.link.abandoned + GivenUpBy(s, step)
            && l.interrupted == s.link.interrupted + InterruptedBy(s, step) && l.late == s.link.late + LateBy(s, step)
  {
    hide Handle, Serve, Complete, GivesUp, Timely, Leftover, Unanswered;
    if step.Observe? {
      PerformHistory(s.link, Handle(s.cfg, s.recorder, step.event).effects, step.now);
    }
  }

  lemma RunLogs(states: seq<System>, steps: seq<Step>)
    requires IsRun(states, steps)
    ensures Last(states).link.log == Recorded(states, steps)
  {
    hide RecordedBy, Do, MayDo, Handle;
    LogIsRecorded(states, steps);
    assert [] + Recorded(states, steps) == Recorded(states, steps);
  }

  /** What the last step adds to the history. */
  lemma LastHistory(states: seq<System>, steps: seq<Step>)
    requires IsRun(states, steps) && steps != []
    requires states[|steps| - 1].link.samples == SampledIn(states[|steps| - 1].link.log)
    ensures var s, step, l := states[|steps| - 1], steps[|steps| - 1], Last(states).link;
            && l.samples == SampledIn(l.log) && l.abandoned == s.link.abandoned + GivenUpBy(s, step)
            && l.interrupted == s.link.interrupted + InterruptedBy(s, step) && l.late == s.link.late + LateBy(s, step)
  {
    hide Do, MayDo, Handle, SampledIn, GivenUpBy, InterruptedBy, LateBy;
    var n := |steps| - 1;
    assert Follows(states[n], steps[n], states[n + 1]);
    StepHistory(states[n], steps[n]);
  }

  /** The history that the states carry is that of the run. */
  lemma {:induction false} RunHistory(states: seq<System>, steps: seq<Step>)
    requires IsRun(states, steps)
    ensures var l := Last(states).link;
            && l.log == Recorded(states, steps) && l.samples == SampledIn(Recorded(states, steps))
            && l.abandoned == GaveUp(states, steps) && l.interrupted == Interrupted(states, steps)
            && l.late == Late(states, steps)
    decreases |steps|
  {
    assert SampledIn([]) == {};
    RunLogs(states, steps);
    hide SysInv, RecordedBy, Do, MayDo, Handle, SampledIn, GivenUpBy, InterruptedBy, LateBy, Follows, Recorded;
    if steps != [] {
      var n := |steps| - 1;
      RunPrefix(states, steps);
      RunHistory(states[..n + 1], steps[..n]);
      LastHistory(states, steps);
    }
  }

  lemma ShapedOf(s: System)
    requires SysInv(s)
    ensures s.recorder.Shaped() && Inv(s.link)
  {
  }

  // ---- safety ------------------------------------------------------------------------------------

  /** Whatever is lost, repeated, merged or interrupted on the way, no request that somebody waits for is refused, except a
      repeated delete of a trip that is gone, unless a forgotten request of its trip landed late; and no command is given
      up but those of such trips and of trips whose create was answered with something unreadable. */
  lemma NothingIsRefused(states: seq<System>, steps: seq<Step>, id: nat)
    requires IsRun(states, steps)
    ensures LettersAbandoned(Last(states).link.outbox.deadLetters, GaveUp(states, steps) + Late(states, steps))
    ensures MayArrive(Last(states).link, id) ==>
              var l := Last(states).link;
              var reply := Serve(l.server, l.air[id].request).1;
              reply.Refused? ==>
                || (reply.status == 404 && l.air[id].request.DeleteReq?)
                || exists e :: e in l.outbox.entries && e.id == id && TripOfEntry(e) in Late(states, steps)
  {
    hide Inv, Serve, MayArrive, Do, MayDo, Handle, GaveUp, Late;
    RunKeepsInv(states, steps);
    RunHistory(states, steps);
    EntriesSorted(Last(states).link);
    if MayArrive(Last(states).link, id) {
      LinkServe.ArriveKeepsInv(Last(states).link, id);
    }
  }

  function TripOfEntry(e: Entry): TripKey {
    if e.command.TripKeyOf().Some? then e.command.TripKeyOf().value else TripKey(0, 0)
  }

  /** Since the dead letters were last cleared, an unreadable answer to a create was reported, or that the server refused
      a request. */
  function LettersDue(states: seq<System>, steps: seq<Step>): bool
    requires |states| == |steps| + 1
    decreases |steps|
  {
    if steps == [] then false
    else
      var n := |steps| - 1;
      || GivenUpBy(states[n], steps[n]) + RefusedBy(states[n], steps[n]) != {}
      || (!steps[n].ClearLetters? && LettersDue(states[..n + 1], steps[..n]))
  }

  lemma AnswerLetters(l: Link, policy: RetryPolicy, id: nat, o: Outcome, now: Time)
    requires Inv(l) && MayAnswer(l, id, o)
    ensures var letters := L.Answer(l, policy, id, o, now).outbox.deadLetters;
            if GivesUp(l.outbox.entries, id, o) + Refuses(l.outbox.entries, policy, id, o) == {}
            then letters == l.outbox.deadLetters
            else letters != []
  {
    hide Inv, MayAnswer, Answered, TripOf, Without, Orphans, Leftover, GivesUp, Refuses;
    var _, how := LinkNetwork.AnswerShape(l, policy, id, o, now);
    var a, b := GivesUp(l.outbox.entries, id, o), Refuses(l.outbox.entries, policy, id, o);
    assert a + b == {} <==> a == {} && b == {};
  }

  lemma StepLetters(s: System, step: Step)
    requires SysInv(s) && MayDo(s, step) && s.link.samples == SampledIn(s.link.log)
    ensures var letters := Do(s, step).link.outbox.deadLetters;
            if GivenUpBy(s, step) + RefusedBy(s, step) != {} then letters != []
            else letters == if step.ClearLetters? then [] else s.link.outbox.deadLetters
    ensures RefusedBy(s, step) <= s.link.late
  {
    hide Handle, Serve, Complete, Inv, Matches, GivesUp, Refuses;
    match step
    case Observe(e, now) => PerformHistory(s.link, Handle(s.cfg, s.recorder, e).effects, now);
    case Report(policy, id, o, now) =>
      AnswerLetters(s.link, policy, id, o, now);
      var _, _ := LinkNetwork.AnswerShape(s.link, policy, id, o, now);
    case _ =>
  }

  /** There are dead letters exactly when a create got an unreadable answer, or a refusal was reported, since they were last
      cleared; and a refusal is only ever reported of a trip of which a forgotten request landed late. */
  lemma {:induction false} LettersExactlyWhen(states: seq<System>, steps: seq<Step>)
    requires IsRun(states, steps)
    ensures Last(states).link.outbox.deadLetters != [] <==> LettersDue(states, steps)
    ensures forall i :: 0 <= i < |steps| ==> RefusedBy(states[i], steps[i]) <= Late(states, steps)
    decreases |steps|
  {
    hide SysInv, RecordedBy, Do, MayDo, Handle, SampledIn, GivenUpBy, RefusedBy, LateBy;
    if steps != [] {
      var n := |steps| - 1;
      RunPrefix(states, steps);
      LettersExactlyWhen(states[..n + 1], steps[..n]);
      RunHistory(states[..n + 1], steps[..n]);
      StepLetters(states[n], steps[n]);
      forall i | 0 <= i < |steps| ensures RefusedBy(states[i], steps[i]) <= Late(states, steps) {
        if i < n {
          assert states[..n + 1][i] == states[i] && steps[..n][i] == steps[i];
        }
      }
    }
  }

  /** Every record, finished or not, obeys the server's rules as recorded: numbers without gaps up to the limit,
      stop arrivals on first attempts only, departures in order, all times within the trip. */
  lemma EveryRecordIsLegal(states: seq<System>, steps: seq<Step>, k: TripKey)
    requires IsRun(states, steps) && Ideal(Recorded(states, steps), k).Some?
    ensures Disciplined(Ideal(Recorded(states, steps), k).value)
  {
    hide Inv, Disciplined, Ideal, RecordedBy, Do, MayDo, Handle;
    RunKeepsInv(states, steps);
    LogIsRecorded(states, steps);
    assert [] + Recorded(states, steps) == Recorded(states, steps);
  }

  /** The recorder obeys the server's rules one command at a time, whatever the events and their times: each command
      meets a record, built from everything it sent before, on which the server accepts it; uploads are checked when they
      are cut into batches. So a write never comes before its trip's create, and a number never skips. */
  lemma EveryCommandIsAcceptable(states: seq<System>, steps: seq<Step>, k: TripKey)
    requires IsRun(states, steps)
    ensures Chain(TripWriter(k), Obeying(k), None, Recorded(states, steps))
  {
    hide Inv, Chain, RecordedBy, Do, MayDo, Handle;
    RunKeepsInv(states, steps);
    LogIsRecorded(states, steps);
    assert [] + Recorded(states, steps) == Recorded(states, steps);
  }

  /** At most one request per lane is on its way, it is the lane's oldest, and a delete is on its way only after every
      other command of its trip is done. */
  lemma LanesAreSerial(states: seq<System>, steps: seq<Step>, a: Entry, b: Entry)
    requires IsRun(states, steps)
    requires a in Last(states).link.outbox.entries && b in Last(states).link.outbox.entries && a.inFlight && a != b
    ensures a.command.LaneOf() == b.command.LaneOf() ==> !b.inFlight && a.id < b.id
    ensures a.command.DeleteTrip? ==> !b.command.Of(a.command.key)
  {
    hide Inv, RecordedBy, Do, MayDo, Handle;
    RunKeepsInv(states, steps);
    var l := Last(states).link;
    EntryOf(l, a);
    EntryOf(l, b);
    EntriesSorted(l);
    DistinctIds(l.outbox.entries, a, b);
  }

  lemma DistinctIds(es: seq<Entry>, a: Entry, b: Entry)
    requires Sorted(es) && a in es && b in es && a != b
    ensures a.id != b.id
  {
    var i :| 0 <= i < |es| && es[i] == a;
    if a.id == b.id {
      SortedIds(es, i, b);
    }
  }

  // ---- what the server ends up with --------------------------------------------------------------

  /** The server holds for the trip what the history means, points at shared instants apart. */
  ghost predicate ServerHas(server: Server, log: seq<Command>, k: TripKey) {
    var shared := Shared(SampledIn(log));
    TripOf(server, k) == Ideal(log, k) && OwnRows(server, k, shared) == IdealRows(log, k) - shared
  }

  /** Exactly-once meaning: with nothing left to send for a trip that was neither cancelled nor given up, and of which
      nothing landed late, the server holds what the recorded commands mean when each is applied once, in order. */
  lemma DrainedMeansRecorded(states: seq<System>, steps: seq<Step>, k: TripKey)
    requires IsRun(states, steps) && Finished(Last(states).link, k)
    requires DeleteTrip(k) !in Recorded(states, steps) && k !in GaveUp(states, steps) && k !in Late(states, steps)
    ensures ServerHas(Last(states).link.server, Recorded(states, steps), k)
  {
    hide Inv, Ideal, IdealRows, OwnRows, Shared, RecordedBy, Do, MayDo, Handle;
    RunKeepsInv(states, steps);
    RunHistory(states, steps);
    DrainedConverges(Last(states).link, k);
  }

  lemma DrainedConverges(l: Link, k: TripKey)
    requires Inv(l) && Finished(l, k) && k !in l.leaked && k !in l.abandoned && k !in l.late
    ensures TripOf(l.server, k) == Ideal(l.log, k)
    ensures OwnRows(l.server, k, Shared(l.samples)) == IdealRows(l.log, k) - Shared(l.samples)
  {
    hide Inv, Fold, OwnRows, Shared, Ideal, IdealRows;
    KeyOf(l, k);
    InertFolds(l.outbox.entries, k, TripOf(l.server, k), OwnRows(l.server, k, Shared(l.samples)), Shared(l.samples));
  }

  /** A trip whose create was answered with something unreadable, and of which nothing landed late, stays on the server as
      the create left it, whatever is recorded for it later: no arrival, no attempts, no points. */
  lemma GivenUpStaysBare(states: seq<System>, steps: seq<Step>, k: TripKey)
    requires IsRun(states, steps) && k in GaveUp(states, steps) && k !in Late(states, steps)
    ensures var l := Last(states).link;
            && TripOf(l.server, k) == Some(FreshTrip(k, KstDate(k.leftHomeAt))) && RowsOf(l.server, k) == map[]
            && k !in l.outbox.tripIds
    ensures ServerHas(Last(states).link.server, Recorded(states, steps), k) <==>
              var shared := Shared(SampledIn(Recorded(states, steps)));
              && Ideal(Recorded(states, steps), k) == Some(FreshTrip(k, KstDate(k.leftHomeAt)))
              && IdealRows(Recorded(states, steps), k) - shared == map[]
  {
    hide Inv, Ideal, IdealRows, TripOf, RowsOf, Shared, RecordedBy, Do, MayDo, Handle;
    RunKeepsInv(states, steps);
    RunHistory(states, steps);
    StrandedOf(Last(states).link, k);
    OwnRowsOfNone(Last(states).link.server, k, Shared(SampledIn(Recorded(states, steps))));
  }

  // ---- progress ----------------------------------------------------------------------------------

  /** The command is of a trip that was not given up. */
  predicate Kept(abandoned: set<TripKey>, e: Entry) {
    e.command.TripKeyOf().Some? && e.command.TripKeyOf().value !in abandoned
  }

  predicate FirstKept(l: Link, i: nat) {
    && i < |l.outbox.entries| && Kept(l.abandoned, l.outbox.entries[i])
    && forall j :: 0 <= j < i ==> !Kept(l.abandoned, l.outbox.entries[j])
  }

  lemma {:induction false} FindsKept(l: Link, from: nat, some: nat) returns (i: nat)
    requires from <= some < |l.outbox.entries| && Kept(l.abandoned, l.outbox.entries[some])
    requires forall j :: 0 <= j < from ==> !Kept(l.abandoned, l.outbox.entries[j])
    ensures FirstKept(l, i)
    decreases some - from
  {
    if Kept(l.abandoned, l.outbox.entries[from]) {
      i := from;
    } else {
      i := FindsKept(l, from + 1, some);
    }
  }

  /** Nothing of its trip is ahead of it. */
  lemma FirstIsAhead(l: Link, i: nat)
    requires FirstKept(l, i) && Sorted(l.outbox.entries)
    ensures var e := l.outbox.entries[i];
            forall o :: o in l.outbox.entries && o.command.TripKeyOf() == e.command.TripKeyOf() && o.id <= e.id ==> o == e
    ensures Heads(l.outbox.entries, i)
  {
    var es := l.outbox.entries;
    forall j | 0 <= j < i ensures es[j].command.TripKeyOf() != es[i].command.TripKeyOf() {
      assert !Kept(l.abandoned, es[j]);
    }
    forall o | o in es && o.command.TripKeyOf() == es[i].command.TripKeyOf() && o.id <= es[i].id ensures o == es[i] {
      var j :| 0 <= j < |es| && es[j] == o;
    }
  }

  lemma FirstResolves(l: Link, i: nat)
    requires Inv(l) && FirstKept(l, i)
    ensures Resolve(l.outbox.tripIds, l.outbox.entries[i].command).Some?
  {
    hide Inv, Heads;
    var e := l.outbox.entries[i];
    EntryOf(l, e);
    EntriesSorted(l);
    FirstIsAhead(l, i);
    var k := e.command.TripKeyOf().value;
    if k !in l.outbox.tripIds {
      CreateIsAhead(l, e, k);
    }
  }

  /** The oldest entry of a trip not given up is always able to leave as soon as its retry delay is over. */
  lemma OldestCanLeave(l: Link, i: nat, now: Time)
    requires Inv(l) && FirstKept(l, i) && !l.outbox.entries[i].inFlight
    requires var t := l.outbox.entries[i].notBefore; t.Some? ==> t.value <= now
    ensures Ready(l.outbox, i, now)
  {
    hide Inv, Heads, Resolve, TripOf, RowsOf, Ideal, IdealRows, Kept;
    var es := l.outbox.entries;
    var e := es[i];
    EntriesSorted(l);
    FirstIsAhead(l, i);
    FirstResolves(l, i);
    if e.command.DeleteTrip? {
      DeleteIsLast(l, e, e.command.key);
      forall j | 0 <= j < |es| && es[j].id != e.id ensures !es[j].command.Of(e.command.key) {
        assert es[j] in es;
      }
    }
  }

  /** An entry that was tried before can leave again when its delay is over. */
  lemma TriedCanLeave(l: Link, i: nat, now: Time)
    requires Inv(l) && i < |l.outbox.entries| && !l.outbox.entries[i].inFlight
    requires var t := l.outbox.entries[i].notBefore; t.Some? && t.value <= now
    ensures Ready(l.outbox, i, now)
  {
    hide Inv;
    var e := l.outbox.entries[i];
    EntryOf(l, e);
    EntriesSorted(l);
    LinkNetwork.HeadsAreHeads(l.outbox.entries, i);
    if e.command.DeleteTrip? {
      forall j | 0 <= j < |l.outbox.entries| && l.outbox.entries[j].id != e.id
        ensures !l.outbox.entries[j].command.Of(e.command.key)
      {
        assert l.outbox.entries[j] in l.outbox.entries;
      }
    }
  }

  /** Only entries of trips not given up ever leave, or wait for a retry. */
  lemma OnlyKeptLeave(l: Link, i: nat, now: Time)
    requires Inv(l) && i < |l.outbox.entries| && (Ready(l.outbox, i, now) || l.outbox.entries[i].notBefore.Some?)
    ensures Kept(l.abandoned, l.outbox.entries[i])
  {
    hide Inv, Foremost, Answered;
    var e := l.outbox.entries[i];
    EntryOf(l, e);
    var k := e.command.TripKeyOf().value;
    if k in l.abandoned {
      AbandonedHasNoId(l, k);
    }
  }

  /** Something leaves now, or the outbox asks to be woken at a later time at which something leaves. */
  predicate WakesUp(st: OutboxState, now: Time) {
    || Next(st, now).1.Some?
    || (NextWakeAt(st, now).Some? && NextWakeAt(st, now).value > now && Next(st, NextWakeAt(st, now).value).1.Some?)
  }

  lemma KeptWakesUp(l: Link, now: Time)
    requires Inv(l) && !l.outbox.paused && forall e :: e in l.outbox.entries ==> !e.inFlight
    requires exists e :: e in l.outbox.entries && Kept(l.abandoned, e)
    ensures WakesUp(l.outbox, now)
  {
    hide Inv, Ready;
    var st := l.outbox;
    var e :| e in st.entries && Kept(l.abandoned, e);
    var some :| 0 <= some < |st.entries| && st.entries[some] == e;
    var o := FindsKept(l, 0, some);
    var t := st.entries[o].notBefore;
    if t.None? || t.value <= now {
      OldestCanLeave(l, o, now);
    } else {
      var w := EarliestAfter(st.entries, now).value;
      var i :| 0 <= i < |st.entries| && st.entries[i].notBefore == Some(w);
      TriedCanLeave(l, i, w);
    }
  }

  lemma NoneKeptSleeps(l: Link, now: Time)
    requires Inv(l) && forall e :: e in l.outbox.entries ==> !Kept(l.abandoned, e)
    ensures Next(l.outbox, now).1.None? && NextWakeAt(l.outbox, now).None?
  {
    hide Inv, Ready, Kept;
    var i := FirstReady(l.outbox, now, 0);
    if i < |l.outbox.entries| {
      OnlyKeptLeave(l, i, now);
    }
    if w :| EarliestAfter(l.outbox.entries, now) == Some(w) {
      var j :| 0 <= j < |l.outbox.entries| && l.outbox.entries[j].notBefore == Some(w);
      OnlyKeptLeave(l, j, now);
    }
  }

  /** No lost wake-up, exactly: with something queued, nothing paused and nothing on its way, the outbox goes on if and
      only if something queued is of a trip that was not given up. Otherwise it never sends and never asks to be woken. */
  lemma NoLostWakeUp(states: seq<System>, steps: seq<Step>, now: Time)
    requires IsRun(states, steps)
    requires var st := Last(states).link.outbox; !st.paused && forall e :: e in st.entries ==> !e.inFlight
    ensures var st := Last(states).link.outbox;
            WakesUp(st, now) <==> exists e :: e in st.entries && Kept(GaveUp(states, steps), e)
    ensures var st := Last(states).link.outbox;
            !WakesUp(st, now) ==> forall at :: Next(st, at).1.None? && NextWakeAt(st, at).None?
  {
    hide Inv, WakesUp, Kept, Do, MayDo, Handle, GaveUp, Next, NextWakeAt;
    RunKeepsInv(states, steps);
    RunHistory(states, steps);
    var l := Last(states).link;
    if exists e :: e in l.outbox.entries && Kept(l.abandoned, e) {
      KeptWakesUp(l, now);
    } else {
      forall at ensures Next(l.outbox, at).1.None? && NextWakeAt(l.outbox, at).None? {
        NoneKeptSleeps(l, at);
      }
      assert !WakesUp(l.outbox, now) by { NeverWakes(l.outbox, now); }
    }
  }

  lemma NeverWakes(st: OutboxState, now: Time)
    requires Next(st, now).1.None? && NextWakeAt(st, now).None?
    ensures !WakesUp(st, now)
  {
  }

  /** Which entries are stuck shows in the outbox itself: those of trips without an id and without a queued create. */
  lemma StuckIsVisible(states: seq<System>, steps: seq<Step>, e: Entry)
    requires IsRun(states, steps) && e in Last(states).link.outbox.entries
    ensures var st := Last(states).link.outbox;
            Kept(GaveUp(states, steps), e) <==>
              && e.command.TripKeyOf().Some?
              && var k := e.command.TripKeyOf().value;
                 k in st.tripIds || exists c :: c in st.entries && IsCreateOf(c.command, k)
  {
    hide Inv, Do, MayDo, Handle, GaveUp, TripOf, RowsOf;
    RunKeepsInv(states, steps);
    RunHistory(states, steps);
    var l := Last(states).link;
    EntryOf(l, e);
    var k := e.command.TripKeyOf().value;
    if k in l.abandoned {
      AbandonedHasNoId(l, k);
    } else if k !in l.outbox.tripIds {
      CreateIsAhead(l, e, k);
    }
  }

  /** No new event, no new settings, no relaunch and nothing forgotten. */
  predicate Sends(step: Step) {
    !step.Observe? && !step.Reconfigure? && !step.Relaunch? && !step.DeliverLate?
  }

  predicate JustSending(steps: seq<Step>) {
    forall i :: 0 <= i < |steps| ==> Sends(steps[i])
  }

  ghost predicate Leads(s: System, s': System) {
    exists states: seq<System>, steps: seq<Step> ::
      Path(states, steps) && states[0] == s && Last(states) == s' && JustSending(steps)
  }

  lemma LeadsNowhere(s: System)
    ensures Leads(s, s)
  {
    hide Do, MayDo, Handle;
    var states: seq<System>, steps: seq<Step> := [s], [];
    assert Path(states, steps);
  }

  lemma LeadsOn(s: System, mid: System, step: Step, s': System)
    requires Leads(s, mid) && Follows(mid, step, s') && Sends(step)
    ensures Leads(s, s')
  {
    hide Do, MayDo, Handle;
    var states: seq<System>, steps: seq<Step> :|
      Path(states, steps) && states[0] == s && Last(states) == mid && JustSending(steps);
    var states', steps' := states + [s'], steps + [step];
    forall i | 0 <= i < |steps'| ensures Follows(states'[i], steps'[i], states'[i + 1]) {
      if i < |steps| {
        assert Follows(states[i], steps[i], states[i + 1]);
      }
    }
    assert Path(states', steps');
  }

  predicate SameHistory(l: Link, l': Link) {
    && l'.log == l.log && l'.samples == l.samples && l'.abandoned == l.abandoned
    && l'.interrupted == l.interrupted && l'.late == l.late
  }

  /** An entry on its way can be carried to its end. */
  lemma InFlightCanFinish(s: System, i: nat) returns (s': System)
    requires SysInv(s) && i < |s.link.outbox.entries| && s.link.outbox.entries[i].inFlight
    ensures Leads(s, s') && SysInv(s') && |s'.link.outbox.entries| == |s.link.outbox.entries| - 1
    ensures SameHistory(s.link, s'.link)
  {
    hide Handle, Inv, Complete, Serve;
    LeadsNowhere(s);
    var e := s.link.outbox.entries[i];
    EntryOf(s.link, e);
    var mid := s;
    if s.link.air[e.id].reply.None? {
      mid := Do(s, Deliver(e.id));
      StepKeepsInv(s, Deliver(e.id));
      LeadsOn(s, s, Deliver(e.id), mid);
    }
    var o := Finishes(mid.link, i);
    var step := Report(DefaultRetry, e.id, o, 0);
    s' := Do(mid, step);
    StepKeepsInv(mid, step);
    LeadsOn(s, mid, step, s');
  }

  /** The outcome of a request that the server has answered. */
  lemma Finishes(l: Link, i: nat) returns (o: Outcome)
    requires Inv(l) && i < |l.outbox.entries| && l.outbox.entries[i].inFlight
    requires l.outbox.entries[i].id in l.air && l.air[l.outbox.entries[i].id].reply.Some?
    ensures MayAnswer(l, l.outbox.entries[i].id, o)
    ensures |Complete(DefaultRetry, l.outbox, l.outbox.entries[i].id, o, 0).entries| == |l.outbox.entries| - 1
    ensures GivesUp(l.outbox.entries, l.outbox.entries[i].id, o) == {}
  {
    hide Inv;
    var e := l.outbox.entries[i];
    EntryOf(l, e);
    EntriesSorted(l);
    var reply := l.air[e.id].reply.value;
    o := match reply
         case Created(id) => TripCreated(id)
         case Accepted => Delivered
         case Refused(status) => Failed(Http(status));
    var j := IndexOf(l.outbox.entries, e.id);
    assert j == i;
  }

  lemma OldestCanBeSent(s: System) returns (s': System, i: nat)
    requires SysInv(s) && exists e :: e in s.link.outbox.entries && Kept(s.link.abandoned, e)
    requires forall e :: e in s.link.outbox.entries ==> !e.inFlight
    ensures Leads(s, s') && SysInv(s')
    ensures |s'.link.outbox.entries| == |s.link.outbox.entries|
    ensures i < |s'.link.outbox.entries| && s'.link.outbox.entries[i].inFlight
    ensures SameHistory(s.link, s'.link)
  {
    hide Handle, Inv, Ready;
    LeadsNowhere(s);
    var s1 := Do(s, ResumeSending);
    StepKeepsInv(s, ResumeSending);
    LeadsOn(s, s, ResumeSending, s1);
    var s2 := Do(s1, ExpediteRetries);
    StepKeepsInv(s1, ExpediteRetries);
    LeadsOn(s, s1, ExpediteRetries, s2);
    var es, es2 := s.link.outbox.entries, s2.link.outbox.entries;
    var e :| e in es && Kept(s.link.abandoned, e);
    var j :| 0 <= j < |es| && es[j] == e;
    assert es2[j] in es2 && Kept(s2.link.abandoned, es2[j]);
    var o := FindsKept(s2.link, 0, j);
    assert es[o] in es && es2[o] == es[o].(notBefore := None);
    OldestCanLeave(s2.link, o, 0);
    i := FirstReady(s2.link.outbox, 0, 0);
    s' := Do(s2, SendNext(0));
    StepKeepsInv(s2, SendNext(0));
    LeadsOn(s, s2, SendNext(0), s');
  }

  /** Nothing but a given-up trip ever gets stuck: from every state of every run the queue can be emptied of everything else
      by sending, answering and resuming alone. */
  lemma {:induction false} CanDrain(s: System) returns (s': System)
    requires SysInv(s)
    ensures Leads(s, s') && SysInv(s') && forall e :: e in s'.link.outbox.entries ==> !Kept(s.link.abandoned, e)
    ensures SameHistory(s.link, s'.link)
    decreases |s.link.outbox.entries|
  {
    hide SysInv, Leads, Handle, Kept;
    if forall e :: e in s.link.outbox.entries ==> !Kept(s.link.abandoned, e) {
      LeadsNowhere(s);
      s' := s;
    } else {
      var mid, i := s, 0;
      LeadsNowhere(s);
      if exists i :: 0 <= i < |s.link.outbox.entries| && s.link.outbox.entries[i].inFlight {
        i :| 0 <= i < |s.link.outbox.entries| && s.link.outbox.entries[i].inFlight;
      } else {
        mid, i := OldestCanBeSent(s);
      }
      var after := InFlightCanFinish(mid, i);
      s' := CanDrain(after);
      LeadsJoin(s, mid, after);
      LeadsJoin(s, after, s');
    }
  }

  lemma LeadsJoin(a: System, b: System, c: System)
    requires Leads(a, b) && Leads(b, c)
    ensures Leads(a, c)
  {
    hide Do, MayDo, Handle;
    var states: seq<System>, steps: seq<Step> :|
      Path(states, steps) && states[0] == b && Last(states) == c && JustSending(steps);
    LeadsAlong(a, states, steps);
  }

  lemma {:induction false} LeadsAlong(a: System, states: seq<System>, steps: seq<Step>)
    requires Path(states, steps) && Leads(a, states[0])
    requires JustSending(steps)
    ensures Leads(a, Last(states))
    decreases |steps|
  {
    hide Leads, Do, MayDo, Handle;
    if steps != [] {
      var n := |steps| - 1;
      LeadsAlong(a, states[..n + 1], steps[..n]);
      assert Follows(states[n], steps[n], states[n + 1]);
      LeadsOn(a, states[n], steps[n], states[n + 1]);
    }
  }

  /** The promise of the whole pipeline: after any run, sending and answering can go on until only commands of given-up
      trips are left, and then, of every other trip of which nothing landed late, the server holds exactly what was recorded
      if it was not cancelled, and nothing if it was and no relaunch interrupted its create. */
  lemma EveryRunCanComplete(states: seq<System>, steps: seq<Step>) returns (s': System)
    requires IsRun(states, steps)
    ensures Leads(Last(states), s')
    ensures forall e :: e in s'.link.outbox.entries ==> !Kept(GaveUp(states, steps), e)
    ensures forall k ::
              var recorded := Recorded(states, steps);
              && k !in GaveUp(states, steps) && k !in Late(states, steps)
              && (DeleteTrip(k) !in recorded || k !in Interrupted(states, steps)) ==>
                ServerHas(s'.link.server, recorded, k)
  {
    hide Inv, ServerHas, Leads, RecordedBy, Do, MayDo, Handle, GaveUp, Interrupted, Late;
    RunKeepsInv(states, steps);
    RunHistory(states, steps);
    s' := CanDrain(Last(states));
    forall k | k !in GaveUp(states, steps) && k !in Late(states, steps)
               && (DeleteTrip(k) !in Recorded(states, steps) || k !in Interrupted(states, steps))
      ensures ServerHas(s'.link.server, Recorded(states, steps), k)
    {
      UninterruptedConverges(s'.link, k);
    }
  }

  lemma UninterruptedConverges(l: Link, k: TripKey)
    requires LinkInv(l) && k !in l.abandoned && k !in l.late && forall e :: e in l.outbox.entries ==> !Kept(l.abandoned, e)
    requires DeleteTrip(k) !in l.log || k !in l.interrupted
    requires l.samples == SampledIn(l.log)
    ensures ServerHas(l.server, l.log, k)
  {
    hide Inv, TripOf, OwnRows, Shared, Ideal, IdealRows;
    KeyOf(l, k);
    DrainedConverges(l, k);
  }
}
