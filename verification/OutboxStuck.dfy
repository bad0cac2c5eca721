/** When the outbox can never send something again, whatever is done to it: commands of a trip whose create was given up,
    and a lane whose oldest command is a delete with another command behind it. */
module OutboxStuck {
  import opened Basics
  import opened Commands
  import opened TripServer
  import opened OutboxModel
  import opened Link
  import opened LinkGiveUp
  import opened LinkNetwork
  import opened LinkCancel

  // ---- everything that can be done to an outbox --------------------------------------------------

  /** `Learn` reports an outcome, `Withdraw` cancels a trip, `Reload` is a relaunch; the others are named as in
      Outbox.swift or nearly so. */
  datatype Op =
    | Put(command: Command, now: Time)
    | Withdraw(key: TripKey, now: Time)
    | Pick(now: Time)
    | Learn(policy: RetryPolicy, id: nat, outcome: Outcome, now: Time)
    | GoOn
    | Hurry
    | Forget
    | Reload

  function After(st: OutboxState, op: Op): OutboxState {
    match op
    case Put(c, now) => Enqueue(st, c, now)
    case Withdraw(k, now) => Discard(st, k, now)
    case Pick(now) => Next(st, now).0
    case Learn(policy, id, o, now) => Complete(policy, st, id, o, now)
    case GoOn => Resume(st)
    case Hurry => Expedite(st)
    case Forget => ClearDeadLetters(st)
    case Reload => Relaunched(st)
  }

  /** Outcomes are reported for what is on its way. */
  predicate Allowed(st: OutboxState, op: Op) {
    op.Learn? ==> var i := IndexOf(st.entries, op.id); i < |st.entries| && st.entries[i].inFlight
  }

  function AfterAll(st: OutboxState, ops: seq<Op>): OutboxState {
    if ops == [] then st else After(AfterAll(st, ops[..|ops| - 1]), ops[|ops| - 1])
  }

  predicate AllAllowed(st: OutboxState, ops: seq<Op>) {
    ops == [] || (AllAllowed(st, ops[..|ops| - 1]) && Allowed(AfterAll(st, ops[..|ops| - 1]), ops[|ops| - 1]))
  }

  predicate NoneCreates(ops: seq<Op>, k: TripKey) {
    forall op :: op in ops && op.Put? ==> !IsCreateOf(op.command, k)
  }

  predicate NoneWithdraws(ops: seq<Op>, k: TripKey) {
    forall op :: op in ops && op.Withdraw? ==> op.key != k
  }

  lemma {:induction false} InTurn(st: OutboxState, a: seq<Op>, b: seq<Op>)
    ensures AfterAll(st, a + b) == AfterAll(AfterAll(st, a), b)
    ensures AllAllowed(st, a) && AllAllowed(AfterAll(st, a), b) ==> AllAllowed(st, a + b)
    decreases |b|
  {
    hide After, Allowed;
    if b == [] {
      assert a + b == a;
    } else {
      InTurn(st, a, b[..|b| - 1]);
      assert (a + b)[..|a + b| - 1] == a + b[..|b| - 1];
    }
  }

  // ---- what the operations leave of a trip -------------------------------------------------------

  predicate AnyOf(es: seq<Entry>, k: TripKey) {
    exists e :: e in es && e.command.Of(k)
  }

  /** The trip has no id, and nothing is queued or on its way that could bring one. */
  predicate Strands(st: OutboxState, k: TripKey) {
    k !in st.tripIds && forall e :: e in st.entries && e.command.Of(k) ==> !e.command.CreateTrip? && !e.inFlight
  }

  lemma {:induction false} BatchesOf(st: OutboxState, owner: Option<TripKey>, points: seq<GpsPoint>, now: Time, k: TripKey)
    ensures var st' := AppendAll(st, owner, points, now);
            && st'.tripIds == st.tripIds
            && (forall e :: e in st.entries ==> e in st'.entries)
            && (forall e :: e in st'.entries && e !in st.entries ==> e.command.UploadGps? && e.command.owner == owner && !e.inFlight)
            && (AnyOf(st'.entries, k) <==> AnyOf(st.entries, k) || (owner == Some(k) && points != []))
    decreases |points|
  {
    if points != [] {
      var n := if |points| < MAX_GPS_POINTS then |points| else MAX_GPS_POINTS;
      var c := UploadGps(owner, points[..n]);
      var mid := Append(st, c, now);
      BatchesOf(mid, owner, points[n..], now, k);
      assert mid.entries[|st.entries|] in mid.entries;
      assert forall e :: e in st.entries ==> e in mid.entries;
      assert forall e :: e in mid.entries ==> e in st.entries || e == mid.entries[|st.entries|];
    }
  }

  /** Whether the command leaves anything in the queue. */
  predicate Substantial(c: Command) {
    c.UploadGps? ==> c.points != []
  }

  lemma PutStrands(st: OutboxState, c: Command, now: Time, k: TripKey)
    requires Strands(st, k) && !IsCreateOf(c, k)
    ensures Strands(Enqueue(st, c, now), k)
    ensures AnyOf(Enqueue(st, c, now).entries, k) <==> AnyOf(st.entries, k) || (c.Of(k) && Substantial(c))
  {
    hide MergeTarget, Merged;
    var st' := Enqueue(st, c, now);
    if c.UploadGps? {
      BatchesOf(st, c.owner, c.points, now, k);
    } else if MergeTarget(st.entries, c) >= 0 {
      var i := MergeTarget(st.entries, c);
      MergedKind(st.entries[i].command, c);
      assert st'.entries[i] in st'.entries && st.entries[i] in st.entries;
      forall e | e in st.entries && e != st.entries[i] ensures e in st'.entries {
        var j :| 0 <= j < |st.entries| && st.entries[j] == e;
        assert st'.entries[j] == e;
      }
    } else {
      assert st'.entries[|st.entries|] in st'.entries;
      assert forall e :: e in st.entries ==> e in st'.entries;
    }
  }

  lemma MergedKind(older: Command, newer: Command)
    requires Merged(older, newer).Some?
    ensures var c := Merged(older, newer).value;
            && c.LaneOf() == older.LaneOf() && c.TripKeyOf() == older.TripKeyOf() && !c.CreateTrip?
            && !older.CreateTrip? && !older.DeleteTrip? && !c.DeleteTrip?
            && (older.LaneOf() == newer.LaneOf() ==> newer.TripKeyOf() == older.TripKeyOf())
  {
  }

  lemma WithdrawStrands(st: OutboxState, x: TripKey, now: Time, k: TripKey)
    requires Strands(st, k)
    ensures Strands(Discard(st, x, now), k)
    ensures AnyOf(Discard(st, x, now).entries, k) <==> if x == k then Deleting(st.entries, k) else AnyOf(st.entries, k)
  {
    hide Remaining;
    var landed := CreateMayHaveLanded(st.entries, x);
    var r := Remaining(st.entries, x, landed);
    RemainingMembers(st.entries, x, landed);
    var es' := Discard(st, x, now).entries;
    assert forall e :: e in r ==> e in es';
    assert forall e :: e in es' ==>
      e in r || (e.command == DeleteTrip(x) && !e.inFlight && !Deleting(st.entries, x) && (x in st.tripIds || landed));
    if x == k {
      forall i | 0 <= i < |st.entries| ensures st.entries[i].command.Of(k) ==> !st.entries[i].command.CreateTrip? {
        assert st.entries[i] in st.entries;
      }
      assert !landed;
      if Deleting(st.entries, k) {
        var i :| 0 <= i < |st.entries| && st.entries[i].command == DeleteTrip(k);
        assert st.entries[i] in r;
      }
      forall e | e in r && e.command.Of(k) ensures Deleting(st.entries, k) {
        assert !Surplus(e, k, false);
        var i :| 0 <= i < |st.entries| && st.entries[i] == e;
        assert st.entries[i].command == DeleteTrip(k);
      }
    }
  }

  /** Only flags and counters change. */
  predicate SameCommands(es: seq<Entry>, es': seq<Entry>) {
    |es'| == |es| && forall i :: 0 <= i < |es| ==> es'[i].command == es[i].command && es'[i].id == es[i].id
  }

  lemma FlagsStrand(st: OutboxState, st': OutboxState, k: TripKey)
    requires Strands(st, k) && st'.tripIds == st.tripIds && SameCommands(st.entries, st'.entries)
    requires forall i :: 0 <= i < |st.entries| && st'.entries[i].inFlight && !st.entries[i].inFlight ==>
                           !st.entries[i].command.Of(k)
    ensures Strands(st', k) && (AnyOf(st'.entries, k) <==> AnyOf(st.entries, k))
  {
    forall e | e in st'.entries && e.command.Of(k) ensures !e.command.CreateTrip? && !e.inFlight {
      var i :| 0 <= i < |st'.entries| && st'.entries[i] == e;
      assert st.entries[i] in st.entries;
    }
    if e :| e in st.entries && e.command.Of(k) {
      var i :| 0 <= i < |st.entries| && st.entries[i] == e;
      assert st'.entries[i] in st'.entries;
    }
    if e :| e in st'.entries && e.command.Of(k) {
      var i :| 0 <= i < |st'.entries| && st'.entries[i] == e;
      assert st.entries[i] in st.entries;
    }
  }

  lemma StrandedWaits(st: OutboxState, k: TripKey, i: nat, at: Time)
    requires Strands(st, k) && i < |st.entries| && st.entries[i].command.Of(k)
    ensures !Ready(st, i, at)
  {
    assert st.entries[i] in st.entries;
  }

  lemma PickStrands(st: OutboxState, now: Time, k: TripKey)
    requires Strands(st, k)
    ensures Strands(Next(st, now).0, k) && (AnyOf(Next(st, now).0.entries, k) <==> AnyOf(st.entries, k))
  {
    hide Ready, Strands, AnyOf, Resolve;
    var i := FirstReady(st, now, 0);
    if i < |st.entries| && st.entries[i].command.Of(k) {
      StrandedWaits(st, k, i, now);
    }
    FlagsStrand(st, Next(st, now).0, k);
  }

  lemma RemoveStrands(st: OutboxState, st': OutboxState, i: nat, k: TripKey)
    requires Strands(st, k) && i < |st.entries| && !st.entries[i].command.Of(k)
    requires st'.entries == RemoveAt(st.entries, i) && k !in st'.tripIds
    ensures Strands(st', k) && (AnyOf(st'.entries, k) <==> AnyOf(st.entries, k))
  {
    forall e | e in st.entries && e.command.Of(k) ensures e in st'.entries {
      var j :| 0 <= j < |st.entries| && st.entries[j] == e;
      assert st'.entries[if j < i then j else j - 1] == e;
    }
  }

  lemma FailStrands(policy: RetryPolicy, st: OutboxState, i: nat, error: ApiError, now: Time, k: TripKey)
    requires Strands(st, k) && i < |st.entries| && !st.entries[i].command.Of(k)
    ensures Strands(Fail(policy, st, i, error, now), k)
    ensures AnyOf(Fail(policy, st, i, error, now).entries, k) <==> AnyOf(st.entries, k)
  {
    hide Strands, AnyOf, RetryPolicy.Decide, RetryPolicy.Delay, Orphans;
    var c := st.entries[i].command;
    var st' := Fail(policy, st, i, error, now);
    match policy.Decide(error, c)
    case Retry => FlagsStrand(st, st', k);
    case Pause => FlagsStrand(st, st', k);
    case TreatAsDelivered => SettleStrands(st, i, k);
    case Reject =>
      var mid := st.(entries := RemoveAt(st.entries, i));
      KnownAfter(st, mid, k);
      RemoveStrands(st, mid, i, k);
      if c.CreateTrip? {
        DependentsStrand(mid, st', c.key, k);
      } else {
        SameQueue(mid, st', k);
      }
  }

  lemma KnownAfter(st: OutboxState, st': OutboxState, k: TripKey)
    requires Strands(st, k) && st'.tripIds == st.tripIds
    ensures k !in st'.tripIds
  {
  }

  lemma SameQueue(st: OutboxState, st': OutboxState, k: TripKey)
    requires st'.entries == st.entries && st'.tripIds == st.tripIds
    ensures Strands(st', k) <==> Strands(st, k)
    ensures AnyOf(st'.entries, k) <==> AnyOf(st.entries, k)
  {
  }

  lemma DependentsStrand(st: OutboxState, st': OutboxState, x: TripKey, k: TripKey)
    requires Strands(st, k) && x != k && st'.tripIds == st.tripIds && st'.entries == Without(st.entries, x)
    ensures Strands(st', k) && (AnyOf(st'.entries, k) <==> AnyOf(st.entries, k))
  {
    WithoutMembers(st.entries, x);
    forall e | e in st.entries && e.command.Of(k) ensures e in st'.entries {
      assert !e.command.Of(x);
    }
  }

  lemma SettleStrands(st: OutboxState, i: nat, k: TripKey)
    requires Strands(st, k) && i < |st.entries| && !st.entries[i].command.Of(k)
    ensures Strands(Settle(st, i), k) && (AnyOf(Settle(st, i).entries, k) <==> AnyOf(st.entries, k))
  {
    hide AnyOf;
    RemoveStrands(st, Settle(st, i), i, k);
  }

  lemma LearnStrands(policy: RetryPolicy, st: OutboxState, id: nat, o: Outcome, now: Time, k: TripKey)
    requires Strands(st, k) && Allowed(st, Learn(policy, id, o, now))
    ensures Strands(Complete(policy, st, id, o, now), k)
    ensures AnyOf(Complete(policy, st, id, o, now).entries, k) <==> AnyOf(st.entries, k)
  {
    var i := IndexOf(st.entries, id);
    assert st.entries[i] in st.entries && !st.entries[i].command.Of(k);
    hide AnyOf, Fail, Settle;
    match o
    case TripCreated(_) => RemoveStrands(st, Complete(policy, st, id, o, now), i, k);
    case Delivered => SettleStrands(st, i, k);
    case Failed(error) => FailStrands(policy, st, i, error, now, k);
  }

  lemma OneOpStrands(st: OutboxState, op: Op, k: TripKey)
    requires Strands(st, k) && Allowed(st, op) && (op.Put? ==> !IsCreateOf(op.command, k))
    ensures Strands(After(st, op), k)
  {
    hide Strands, AnyOf, Enqueue, Discard, Next, Complete;
    match op
    case Put(c, now) => PutStrands(st, c, now, k);
    case Withdraw(x, now) => WithdrawStrands(st, x, now, k);
    case Pick(now) => PickStrands(st, now, k);
    case Learn(policy, id, o, now) => LearnStrands(policy, st, id, o, now, k);
    case Forget => SameQueue(st, After(st, op), k);
    case GoOn => SameQueue(st, After(st, op), k);
    case _ => FlagsStrand(st, After(st, op), k);
  }

  /** A trip without an id and without a create stays so, and nothing of it is ever sent, whatever is put in, answered,
      cancelled or reloaded afterwards, short of a new create. */
  lemma {:induction false} StrandedForEver(st: OutboxState, ops: seq<Op>, k: TripKey)
    requires Strands(st, k) && AllAllowed(st, ops) && NoneCreates(ops, k)
    ensures Strands(AfterAll(st, ops), k)
    ensures forall i, at :: 0 <= i < |AfterAll(st, ops).entries| && AfterAll(st, ops).entries[i].command.Of(k) ==>
                              !Ready(AfterAll(st, ops), i, at)
    decreases |ops|
  {
    hide Strands, After, Allowed, Ready;
    if ops != [] {
      var front, op := ops[..|ops| - 1], ops[|ops| - 1];
      assert op in ops;
      StrandedForEver(st, front, k);
      OneOpStrands(AfterAll(st, front), op, k);
    }
    var st' := AfterAll(st, ops);
    forall i, at | 0 <= i < |st'.entries| && st'.entries[i].command.Of(k) ensures !Ready(st', i, at) {
      StrandedWaits(st', k, i, at);
    }
  }

  /** Giving up a create strands its trip: everything queued for it is dropped, and its id will not be learned. */
  lemma GivingUpStrands(policy: RetryPolicy, st: OutboxState, i: nat, error: ApiError, now: Time)
    requires i < |st.entries| && st.entries[i].command.CreateTrip? && st.entries[i].command.key !in st.tripIds
    requires policy.Decide(error, st.entries[i].command) == Reject
    ensures var k := st.entries[i].command.key;
            var st' := Fail(policy, st, i, error, now);
            Strands(st', k) && !AnyOf(st'.entries, k) && st'.deadLetters != []
  {
    WithoutMembers(RemoveAt(st.entries, i), st.entries[i].command.key);
  }

  // ---- a lane headed by a delete -----------------------------------------------------------------

  /** Ids grow along the queue. */
  predicate Numbers(st: OutboxState) {
    Sorted(st.entries) && forall e :: e in st.entries ==> e.id < st.nextId
  }

  predicate InLane(e: Entry, k: TripKey) {
    e.command.LaneOf() == RecordLane(k)
  }

  /** A delete that heads its lane, with nothing of the lane on its way. */
  predicate DeleteHeads(st: OutboxState, k: TripKey, d: Entry) {
    && d in st.entries && d.command == DeleteTrip(k)
    && forall e :: e in st.entries && InLane(e, k) ==> d.id <= e.id && !e.inFlight
  }

  /** The delete waits for a command behind it in its own lane, or for an id. */
  predicate Jams(st: OutboxState, k: TripKey, d: Entry) {
    k !in st.tripIds || exists o :: o in st.entries && InLane(o, k) && o.id != d.id
  }

  ghost predicate Jammed(st: OutboxState, k: TripKey, id: nat) {
    exists d: Entry :: d.id == id && DeleteHeads(st, k, d) && Jams(st, k, d)
  }

  /** Nothing of the lane leaves, now or at any time. */
  ghost predicate LaneStuck(st: OutboxState, k: TripKey) {
    forall i, now :: 0 <= i < |st.entries| && InLane(st.entries[i], k) ==> !Ready(st, i, now)
  }

  lemma JammedIsStuck(st: OutboxState, k: TripKey, id: nat)
    requires Numbers(st) && Jammed(st, k, id)
    ensures LaneStuck(st, k)
  {
    var d: Entry :| d.id == id && DeleteHeads(st, k, d) && Jams(st, k, d);
    var n :| 0 <= n < |st.entries| && st.entries[n] == d;
    forall i, now | 0 <= i < |st.entries| && InLane(st.entries[i], k) ensures !Ready(st, i, now) {
      if i == n {
        if k in st.tripIds {
          var o :| o in st.entries && InLane(o, k) && o.id != d.id;
          var j :| 0 <= j < |st.entries| && st.entries[j] == o;
          assert HeldBack(st.entries, i);
        }
      } else {
        assert st.entries[i] in st.entries;
        assert n < i;
      }
    }
  }

  /** An operation that keeps every entry of the lane, puts nothing of it on its way, and adds only at the end, keeps the
      lane jammed. */
  ghost predicate KeepsLane(st: OutboxState, st': OutboxState, k: TripKey) {
    && (k in st'.tripIds <==> k in st.tripIds)
    && (forall e :: e in st.entries && InLane(e, k) ==>
          exists e' :: e' in st'.entries && e'.id == e.id && InLane(e', k) && (e.command.DeleteTrip? ==> e'.command == e.command))
    && (forall e' :: e' in st'.entries && InLane(e', k) ==>
          !e'.inFlight && (e'.id >= st.nextId || exists e :: e in st.entries && e.id == e'.id && InLane(e, k)))
  }

  lemma KeptJammed(st: OutboxState, st': OutboxState, k: TripKey, id: nat)
    requires Numbers(st) && Jammed(st, k, id) && KeepsLane(st, st', k)
    ensures Jammed(st', k, id)
  {
    hide Sorted;
    var d: Entry :| d.id == id && DeleteHeads(st, k, d) && Jams(st, k, d);
    assert InLane(d, k);
    var d' := KeptEntry(st, st', k, d);
    forall o | o in st'.entries && InLane(o, k) ensures d.id <= o.id && !o.inFlight {}
    assert DeleteHeads(st', k, d');
    if k in st.tripIds {
      var o :| o in st.entries && InLane(o, k) && o.id != d.id;
      var o' := KeptEntry(st, st', k, o);
    }
    assert Jams(st', k, d');
  }

  lemma KeptEntry(st: OutboxState, st': OutboxState, k: TripKey, e: Entry) returns (e': Entry)
    requires KeepsLane(st, st', k) && e in st.entries && InLane(e, k)
    ensures e' in st'.entries && e'.id == e.id && InLane(e', k) && (e.command.DeleteTrip? ==> e'.command == e.command)
  {
    e' :| e' in st'.entries && e'.id == e.id && InLane(e', k) && (e.command.DeleteTrip? ==> e'.command == e.command);
  }

  predicate LaneIdle(st: OutboxState, k: TripKey) {
    forall e :: e in st.entries && InLane(e, k) ==> !e.inFlight
  }

  lemma FlagsKeepLane(st: OutboxState, st': OutboxState, k: TripKey)
    requires Numbers(st) && LaneIdle(st, k) && SameCommands(st.entries, st'.entries)
    requires st'.tripIds == st.tripIds && st'.nextId == st.nextId
    requires forall i :: 0 <= i < |st.entries| && st'.entries[i].inFlight && !st.entries[i].inFlight ==>
                           !InLane(st.entries[i], k)
    ensures Numbers(st') && KeepsLane(st, st', k)
  {
    hide Numbers;
    var es, es' := st.entries, st'.entries;
    SameNumbers(st, st');
    forall e | e in es && InLane(e, k)
      ensures exists e' :: e' in es' && e'.id == e.id && InLane(e', k) && (e.command.DeleteTrip? ==> e'.command == e.command)
    {
      var i :| 0 <= i < |es| && es[i] == e;
      assert es'[i] in es';
    }
    forall e' | e' in es' && InLane(e', k) ensures !e'.inFlight && exists e :: e in es && e.id == e'.id && InLane(e, k) {
      var i :| 0 <= i < |es'| && es'[i] == e';
      assert es[i] in es;
    }
  }

  lemma FewerKeepLane(st: OutboxState, st': OutboxState, k: TripKey)
    requires Numbers(st) && LaneIdle(st, k) && Sorted(st'.entries) && st'.nextId >= st.nextId
    requires forall e :: e in st'.entries ==> e in st.entries
    requires forall e :: e in st.entries && InLane(e, k) ==> e in st'.entries
    requires k in st'.tripIds <==> k in st.tripIds
    ensures Numbers(st') && KeepsLane(st, st', k)
  {
  }

  lemma AppendKeepsLane(st: OutboxState, c: Command, now: Time, k: TripKey)
    requires Numbers(st) && LaneIdle(st, k)
    ensures Numbers(Append(st, c, now)) && KeepsLane(st, Append(st, c, now), k) && LaneIdle(Append(st, c, now), k)
  {
    var st' := Append(st, c, now);
    var e := st'.entries[|st.entries|];
    assert forall o :: o in st'.entries <==> o in st.entries || o == e;
    assert forall i :: 0 <= i < |st.entries| ==> st.entries[i] in st.entries;
  }

  lemma {:induction false} BatchesKeepLane(st: OutboxState, owner: Option<TripKey>, points: seq<GpsPoint>, now: Time, k: TripKey)
    requires Numbers(st) && LaneIdle(st, k)
    ensures var st' := AppendAll(st, owner, points, now);
            Numbers(st') && KeepsLane(st, st', k) && LaneIdle(st', k) && st'.nextId >= st.nextId
    decreases |points|
  {
    if points == [] {
      FlagsKeepLane(st, st, k);
    } else {
      var n := if |points| < MAX_GPS_POINTS then |points| else MAX_GPS_POINTS;
      var mid := Append(st, UploadGps(owner, points[..n]), now);
      hide Append;
      AppendKeepsLane(st, UploadGps(owner, points[..n]), now, k);
      assert mid.nextId == st.nextId + 1 by { NextNumber(st, UploadGps(owner, points[..n]), now); }
      BatchesKeepLane(mid, owner, points[n..], now, k);
      LaneKeptTwice(st, mid, AppendAll(st, owner, points, now), k);
    }
  }

  lemma NextNumber(st: OutboxState, c: Command, now: Time)
    ensures Append(st, c, now).nextId == st.nextId + 1
  {
  }

  lemma LaneKeptTwice(st: OutboxState, mid: OutboxState, st': OutboxState, k: TripKey)
    requires KeepsLane(st, mid, k) && KeepsLane(mid, st', k) && mid.nextId >= st.nextId
    ensures KeepsLane(st, st', k)
  {
    forall e | e in st.entries && InLane(e, k)
      ensures exists e' :: e' in st'.entries && e'.id == e.id && InLane(e', k) && (e.command.DeleteTrip? ==> e'.command == e.command)
    {
      var o := KeptEntry(st, mid, k, e);
      var e' := KeptEntry(mid, st', k, o);
    }
  }

  lemma PutKeepsLane(st: OutboxState, c: Command, now: Time, k: TripKey)
    requires Numbers(st) && LaneIdle(st, k)
    ensures Numbers(Enqueue(st, c, now)) && KeepsLane(st, Enqueue(st, c, now), k)
  {
    hide MergeTarget, Merged, KeepsLane, Numbers, LaneIdle;
    if c.UploadGps? {
      BatchesKeepLane(st, c.owner, c.points, now, k);
    } else if MergeTarget(st.entries, c) < 0 {
      AppendKeepsLane(st, c, now, k);
    } else {
      MergeKeepsLane(st, MergeTarget(st.entries, c), c, Enqueue(st, c, now), k);
    }
  }

  lemma SameNumbers(st: OutboxState, st': OutboxState)
    requires Numbers(st) && |st'.entries| == |st.entries| && st'.nextId == st.nextId
    requires forall j :: 0 <= j < |st.entries| ==> st'.entries[j].id == st.entries[j].id
    ensures Numbers(st')
  {
    forall e | e in st'.entries ensures e.id < st.nextId {
      var j :| 0 <= j < |st'.entries| && st'.entries[j] == e;
      assert st.entries[j] in st.entries;
    }
  }

  lemma MergeKeepsLane(st: OutboxState, i: nat, c: Command, st': OutboxState, k: TripKey)
    requires Numbers(st) && LaneIdle(st, k) && i < |st.entries| && Merged(st.entries[i].command, c).Some?
    requires st' == st.(entries := st.entries[i := st.entries[i].(command := Merged(st.entries[i].command, c).value)])
    ensures Numbers(st') && KeepsLane(st, st', k)
  {
    hide Merged, Numbers;
    MergedKind(st.entries[i].command, c);
    var es, es' := st.entries, st'.entries;
    SameNumbers(st, st');
    forall e | e in es && InLane(e, k)
      ensures exists e' :: e' in es' && e'.id == e.id && InLane(e', k) && (e.command.DeleteTrip? ==> e'.command == e.command)
    {
      var j :| 0 <= j < |es| && es[j] == e;
      assert es'[j] in es';
    }
    forall e' | e' in es' && InLane(e', k) ensures !e'.inFlight && exists e :: e in es && e.id == e'.id && InLane(e, k) {
      var j :| 0 <= j < |es'| && es'[j] == e';
      assert es[j] in es;
    }
  }

  lemma WithdrawKeepsLane(st: OutboxState, x: TripKey, now: Time, k: TripKey)
    requires Numbers(st) && LaneIdle(st, k) && x != k
    ensures Numbers(Discard(st, x, now)) && KeepsLane(st, Discard(st, x, now), k)
  {
    hide Remaining, CreateMayHaveLanded, Deleting;
    var landed := CreateMayHaveLanded(st.entries, x);
    RemainingMembers(st.entries, x, landed);
    RemainingSorted(st.entries, x, landed);
    var mid := st.(entries := Remaining(st.entries, x, landed));
    forall e | e in st.entries && InLane(e, k) ensures e in mid.entries {
      assert !e.command.Of(x);
    }
    FewerKeepLane(st, mid, k);
    if Discard(st, x, now) != mid {
      AppendKeepsLane(mid, DeleteTrip(x), now, k);
      LaneKeptTwice(st, mid, Discard(st, x, now), k);
    }
  }

  lemma RemoveKeepsLane(st: OutboxState, st': OutboxState, i: nat, k: TripKey)
    requires Numbers(st) && LaneIdle(st, k) && i < |st.entries| && !InLane(st.entries[i], k)
    requires st'.entries == RemoveAt(st.entries, i) && st'.nextId == st.nextId
    requires k in st'.tripIds <==> k in st.tripIds
    ensures Numbers(st') && KeepsLane(st, st', k)
  {
    RemovedMembers(st.entries, i);
    RemovedSorted(st.entries, i);
    FewerKeepLane(st, st', k);
  }

  lemma FailKeepsLane(policy: RetryPolicy, st: OutboxState, i: nat, error: ApiError, now: Time, k: TripKey)
    requires Numbers(st) && LaneIdle(st, k) && i < |st.entries| && !InLane(st.entries[i], k)
    ensures Numbers(Fail(policy, st, i, error, now)) && KeepsLane(st, Fail(policy, st, i, error, now), k)
  {
    hide Numbers, KeepsLane, LaneIdle, RetryPolicy.Decide, RetryPolicy.Delay, Orphans;
    var c := st.entries[i].command;
    var st' := Fail(policy, st, i, error, now);
    match policy.Decide(error, c)
    case Retry => FlagsKeepLane(st, st', k);
    case Pause => FlagsKeepLane(st, st', k);
    case TreatAsDelivered => RemoveKeepsLane(st, st', i, k);
    case Reject =>
      var mid := st.(entries := RemoveAt(st.entries, i));
      RemoveKeepsLane(st, mid, i, k);
      if c.CreateTrip? {
        StillIdle(st, mid, k);
        DependentsKeepLane(mid, st', c.key, k);
        LaneKeptTwice(st, mid, st', k);
      } else {
        SameLane(st, mid, st', k);
      }
  }

  lemma StillIdle(st: OutboxState, st': OutboxState, k: TripKey)
    requires KeepsLane(st, st', k)
    ensures LaneIdle(st', k)
  {
  }

  lemma SameLane(st: OutboxState, mid: OutboxState, st': OutboxState, k: TripKey)
    requires Numbers(mid) && KeepsLane(st, mid, k)
    requires st'.entries == mid.entries && st'.tripIds == mid.tripIds && st'.nextId == mid.nextId
    ensures Numbers(st') && KeepsLane(st, st', k)
  {
  }

  lemma DependentsKeepLane(st: OutboxState, st': OutboxState, x: TripKey, k: TripKey)
    requires Numbers(st) && LaneIdle(st, k) && x != k && st'.nextId == st.nextId
    requires st'.tripIds == st.tripIds && st'.entries == Without(st.entries, x)
    ensures Numbers(st') && KeepsLane(st, st', k)
  {
    WithoutMembers(st.entries, x);
    WithoutSorted(st.entries, x);
    forall e | e in st.entries && InLane(e, k) ensures e in st'.entries {
      assert !e.command.Of(x);
    }
    FewerKeepLane(st, st', k);
  }

  lemma LearnKeepsLane(policy: RetryPolicy, st: OutboxState, id: nat, o: Outcome, now: Time, k: TripKey)
    requires Numbers(st) && LaneIdle(st, k) && Allowed(st, Learn(policy, id, o, now))
    ensures Numbers(Complete(policy, st, id, o, now)) && KeepsLane(st, Complete(policy, st, id, o, now), k)
  {
    var i := IndexOf(st.entries, id);
    assert st.entries[i] in st.entries && !InLane(st.entries[i], k);
    hide Numbers, KeepsLane, LaneIdle, Fail;
    match o
    case TripCreated(_) => RemoveKeepsLane(st, Complete(policy, st, id, o, now), i, k);
    case Delivered => RemoveKeepsLane(st, Complete(policy, st, id, o, now), i, k);
    case Failed(error) => FailKeepsLane(policy, st, i, error, now, k);
  }

  lemma PickKeepsLane(st: OutboxState, now: Time, k: TripKey)
    requires Numbers(st) && LaneIdle(st, k) && LaneStuck(st, k)
    ensures Numbers(Next(st, now).0) && KeepsLane(st, Next(st, now).0, k)
  {
    hide Ready, Numbers, KeepsLane, LaneIdle, Resolve;
    FlagsKeepLane(st, Next(st, now).0, k);
  }

  lemma OneOpKeepsLane(st: OutboxState, op: Op, k: TripKey)
    requires Numbers(st) && LaneIdle(st, k) && LaneStuck(st, k)
    requires Allowed(st, op) && (op.Withdraw? ==> op.key != k)
    ensures Numbers(After(st, op)) && KeepsLane(st, After(st, op), k)
  {
    hide Numbers, KeepsLane, LaneIdle, LaneStuck, Enqueue, Discard, Next, Complete;
    match op
    case Put(c, now) => PutKeepsLane(st, c, now, k);
    case Withdraw(x, now) => WithdrawKeepsLane(st, x, now, k);
    case Pick(now) => PickKeepsLane(st, now, k);
    case Learn(policy, id, o, now) => LearnKeepsLane(policy, st, id, o, now, k);
    case _ => FlagsKeepLane(st, After(st, op), k);
  }

  lemma {:induction false} JammedForEver(st: OutboxState, ops: seq<Op>, k: TripKey, id: nat)
    requires Numbers(st) && Jammed(st, k, id) && AllAllowed(st, ops) && NoneWithdraws(ops, k)
    ensures Numbers(AfterAll(st, ops)) && Jammed(AfterAll(st, ops), k, id) && LaneStuck(AfterAll(st, ops), k)
    decreases |ops|
  {
    hide Numbers, Jammed, KeepsLane, LaneStuck, After, Allowed;
    if ops != [] {
      var front, op := ops[..|ops| - 1], ops[|ops| - 1];
      assert op in ops;
      JammedForEver(st, front, k, id);
      var mid := AfterAll(st, front);
      JammedIsIdle(mid, k, id);
      OneOpKeepsLane(mid, op, k);
      KeptJammed(mid, After(mid, op), k, id);
    }
    JammedIsStuck(AfterAll(st, ops), k, id);
  }

  lemma JammedIsIdle(st: OutboxState, k: TripKey, id: nat)
    requires Jammed(st, k, id)
    ensures LaneIdle(st, k)
  {
  }

  // ---- when the delete does get away -------------------------------------------------------------

  function Idle(es: seq<Entry>): nat {
    if es == [] then 0 else Idle(es[..|es| - 1]) + if es[|es| - 1].inFlight then 0 else 1
  }

  lemma {:induction false} IdleAfter(es: seq<Entry>, es': seq<Entry>, i: nat)
    requires |es'| == |es| && i < |es| && !es[i].inFlight && es'[i].inFlight
    requires forall j :: 0 <= j < |es| && j != i ==> es'[j].inFlight == es[j].inFlight
    ensures Idle(es') < Idle(es)
    decreases |es|
  {
    var n := |es| - 1;
    if i < n {
      IdleAfter(es[..n], es'[..n], i);
    } else {
      SameIdle(es[..n], es'[..n]);
    }
  }

  lemma {:induction false} SameIdle(es: seq<Entry>, es': seq<Entry>)
    requires |es'| == |es| && forall j :: 0 <= j < |es| ==> es'[j].inFlight == es[j].inFlight
    ensures Idle(es') == Idle(es)
    decreases |es|
  {
    if es != [] {
      SameIdle(es[..|es| - 1], es'[..|es| - 1]);
    }
  }

  /** A delete whose id is known and that is alone in its lane, at position `i`. */
  predicate Free(st: OutboxState, k: TripKey, i: nat) {
    && Numbers(st) && i < |st.entries| && k in st.tripIds
    && st.entries[i].command == DeleteTrip(k) && !st.entries[i].inFlight
    && forall j :: 0 <= j < |st.entries| && j != i ==> !InLane(st.entries[j], k)
  }

  lemma FlagsStayFree(st: OutboxState, st': OutboxState, k: TripKey, i: nat)
    requires Free(st, k, i) && SameCommands(st.entries, st'.entries) && !st'.entries[i].inFlight
    requires st'.tripIds == st.tripIds && st'.nextId == st.nextId
    ensures Free(st', k, i)
  {
    hide Numbers;
    SameNumbers(st, st');
  }

  /** The first upload of the trip can leave as soon as the retry delays are lifted; it, or something before it, is picked. */
  lemma PickWhileUploads(st: OutboxState, k: TripKey, i: nat, u: nat)
    requires Free(st, k, i) && u < |st.entries| && st.entries[u].command.Of(k) && u != i
    requires forall j :: 0 <= j < |st.entries| && st.entries[j].command.Of(k) ==> !st.entries[j].inFlight
    ensures var ops := [GoOn, Hurry, Pick(0)];
            var st' := AfterAll(st, ops);
            && AllAllowed(st, ops) && NoneWithdraws(ops, k)
            && Free(st', k, i) && |st'.entries| == |st.entries| && Idle(st'.entries) < Idle(st.entries)
  {
    hide AfterAll, AllAllowed, Free, Ready, Idle;
    ThreeOps(st, GoOn, Hurry, Pick(0));
    var mid := Lifted(st, k, i, u);
    var u0 := FirstOf(mid.entries, k, i, u);
    UploadIsReady(mid, k, i, u0);
    PickTakes(mid, k, i, u0);
  }

  /** Resuming and lifting the retry delays changes nothing else. */
  lemma Lifted(st: OutboxState, k: TripKey, i: nat, u: nat) returns (mid: OutboxState)
    requires Free(st, k, i) && u < |st.entries| && st.entries[u].command.Of(k)
    requires forall j :: 0 <= j < |st.entries| && st.entries[j].command.Of(k) ==> !st.entries[j].inFlight
    ensures mid == After(After(st, GoOn), Hurry) && !mid.paused && Free(mid, k, i)
    ensures |mid.entries| == |st.entries| && Idle(mid.entries) == Idle(st.entries) && mid.entries[u].command.Of(k)
    ensures forall j :: 0 <= j < |mid.entries| && mid.entries[j].command.Of(k) ==>
                          !mid.entries[j].inFlight && mid.entries[j].notBefore.None?
  {
    hide Numbers, Idle;
    mid := Expedite(Resume(st));
    SameIdle(st.entries, mid.entries);
    FlagsStayFree(st, mid, k, i);
  }

  lemma ThreeOps(st: OutboxState, a: Op, b: Op, c: Op)
    requires !a.Learn? && !b.Learn? && !c.Learn?
    ensures AfterAll(st, [a, b, c]) == After(After(After(st, a), b), c) && AllAllowed(st, [a, b, c])
  {
    hide After;
    assert [a, b, c][..2] == [a, b] && [a, b][..1] == [a] && [a][..0] == [];
    assert AfterAll(st, [a]) == After(st, a) && AllAllowed(st, [a]);
    assert AfterAll(st, [a, b]) == After(AfterAll(st, [a]), b) && AllAllowed(st, [a, b]);
  }

  /** The first entry of the trip apart from position `i`. */
  lemma {:induction false} FirstOf(es: seq<Entry>, k: TripKey, i: nat, u: nat) returns (first: nat)
    requires u < |es| && es[u].command.Of(k) && u != i
    ensures first <= u && es[first].command.Of(k) && first != i
    ensures forall j :: 0 <= j < first && j != i ==> !es[j].command.Of(k)
    decreases u
  {
    if j :| 0 <= j < u && j != i && es[j].command.Of(k) {
      first := FirstOf(es, k, i, j);
    } else {
      first := u;
    }
  }

  lemma UploadIsReady(st: OutboxState, k: TripKey, i: nat, u: nat)
    requires Free(st, k, i) && u < |st.entries| && st.entries[u].command.Of(k) && u != i
    requires forall j :: 0 <= j < u && j != i ==> !st.entries[j].command.Of(k)
    requires !st.entries[u].inFlight && st.entries[u].notBefore.None?
    ensures Ready(st, u, 0)
  {
    assert !InLane(st.entries[u], k);
  }

  lemma PickTakes(st: OutboxState, k: TripKey, i: nat, u: nat)
    requires Free(st, k, i) && u < |st.entries| && st.entries[u].command.Of(k) && u != i && Ready(st, u, 0) && !st.paused
    ensures var st' := Next(st, 0).0;
            Free(st', k, i) && |st'.entries| == |st.entries| && Idle(st'.entries) < Idle(st.entries)
  {
    var n := FirstReady(st, 0, 0);
    assert HeldBack(st.entries, i) by {
      assert st.entries[u].id != st.entries[i].id;
    }
    assert n != i && !st.entries[n].inFlight;
    hide Ready, Free, Resolve;
    FlagsStayFree(st, Next(st, 0).0, k, i) by { StillIdleAt(st, k, i, n); }
    IdleAfter(st.entries, Next(st, 0).0.entries, n);
  }

  lemma StillIdleAt(st: OutboxState, k: TripKey, i: nat, n: nat)
    requires Free(st, k, i) && n != i
    ensures !st.entries[i].inFlight
  {
  }

  /** An upload on its way can be delivered. */
  lemma DeliverUpload(st: OutboxState, k: TripKey, i: nat, u: nat) returns (op: Op, i': nat)
    requires Free(st, k, i) && u < |st.entries| && u != i && st.entries[u].command.Of(k) && st.entries[u].inFlight
    ensures op == Learn(DefaultRetry, st.entries[u].id, Delivered, 0) && Allowed(st, op)
    ensures Free(After(st, op), k, i') && |After(st, op).entries| == |st.entries| - 1
  {
    op := Learn(DefaultRetry, st.entries[u].id, Delivered, 0);
    OwnIndex(st.entries, u) by { assert Numbers(st); }
    assert !InLane(st.entries[u], k);
    hide Free, Numbers, Idle;
    i' := OneFewer(st, k, i, u);
  }

  lemma OwnIndex(es: seq<Entry>, u: nat)
    requires Sorted(es) && u < |es|
    ensures IndexOf(es, es[u].id) == u
  {
    var n := IndexOf(es, es[u].id);
    assert n <= u;
  }

  lemma RemovedNumbers(st: OutboxState, u: nat)
    requires Numbers(st) && u < |st.entries|
    ensures Numbers(st.(entries := RemoveAt(st.entries, u)))
  {
    RemovedSorted(st.entries, u);
    RemovedMembers(st.entries, u);
  }

  lemma OneFewer(st: OutboxState, k: TripKey, i: nat, u: nat) returns (i': nat)
    requires Free(st, k, i) && u < |st.entries| && u != i
    ensures Free(st.(entries := RemoveAt(st.entries, u)), k, i')
  {
    hide Numbers;
    var es, es' := st.entries, RemoveAt(st.entries, u);
    i' := if i < u then i else i - 1;
    RemovedNumbers(st, u);
    forall j | 0 <= j < |es'| && j != i' ensures !InLane(es'[j], k) {
      assert es'[j] == es[if j < u then j else j + 1];
    }
  }

  lemma AloneIsReady(st: OutboxState, k: TripKey, i: nat)
    requires Free(st, k, i) && forall j :: 0 <= j < |st.entries| && j != i ==> !st.entries[j].command.Of(k)
    ensures Ready(Expedite(st), i, 0)
  {
    var es := Expedite(st).entries;
    assert forall j :: 0 <= j < |es| ==> es[j].command == st.entries[j].command && es[j].id == st.entries[j].id;
  }

  lemma OneOp(st: OutboxState, op: Op)
    ensures AfterAll(st, [op]) == After(st, op) && (Allowed(st, op) ==> AllAllowed(st, [op]))
  {
    assert [op][..0] == [];
    assert AfterAll(st, []) == st && AllAllowed(st, []);
  }

  /** Sending and delivering what is queued lets a free delete leave. */
  lemma {:induction false} FreeGetsAway(st: OutboxState, k: TripKey, i: nat) returns (ops: seq<Op>, i': nat)
    requires Free(st, k, i)
    ensures AllAllowed(st, ops) && NoneWithdraws(ops, k)
    ensures var st' := AfterAll(st, ops);
            i' < |st'.entries| && InLane(st'.entries[i'], k) && Ready(st', i', 0)
    decreases |st.entries|, Idle(st.entries)
  {
    hide Ready, AfterAll, AllAllowed, After;
    if u :| 0 <= u < |st.entries| && u != i && st.entries[u].command.Of(k) {
      var first, at := [], i;
      if w :| 0 <= w < |st.entries| && w != i && st.entries[w].command.Of(k) && st.entries[w].inFlight {
        var op, n := DeliverUpload(st, k, i, w);
        OneOp(st, op);
        first, at := [op], n;
      } else {
        PickWhileUploads(st, k, i, u);
        first := [GoOn, Hurry, Pick(0)];
      }
      var rest;
      rest, i' := FreeGetsAway(AfterAll(st, first), k, at);
      InTurn(st, first, rest);
      ops := first + rest;
    } else {
      AloneIsReady(st, k, i);
      OneOp(st, Hurry);
      ops, i' := [Hurry], i;
      HurryMeans(st, k);
    }
  }

  lemma HurryMeans(st: OutboxState, k: TripKey)
    ensures After(st, Hurry) == Expedite(st) && Allowed(st, Hurry)
    ensures forall i :: 0 <= i < |st.entries| ==> (InLane(Expedite(st).entries[i], k) <==> InLane(st.entries[i], k))
  {
  }

  /** A lane headed by a delete is stuck for good, whatever is done short of cancelling the trip once more, exactly when
      the trip's id is unknown or another command of the lane waits behind the delete. */
  lemma DeleteStuckExactlyWhen(st: OutboxState, k: TripKey, d: Entry)
    requires Numbers(st) && DeleteHeads(st, k, d)
    ensures (forall ops :: AllAllowed(st, ops) && NoneWithdraws(ops, k) ==> LaneStuck(AfterAll(st, ops), k))
            <==> Jams(st, k, d)
  {
    hide LaneStuck, AfterAll, AllAllowed, Numbers, Ready, Jammed;
    if Jams(st, k, d) {
      JammedBy(st, k, d);
      forall ops | AllAllowed(st, ops) && NoneWithdraws(ops, k) ensures LaneStuck(AfterAll(st, ops), k) {
        JammedForEver(st, ops, k, d.id);
      }
    } else {
      var i :| 0 <= i < |st.entries| && st.entries[i] == d;
      IsFree(st, k, d, i);
      var ops, i' := FreeGetsAway(st, k, i);
      NotStuck(AfterAll(st, ops), k, i', 0);
    }
  }

  lemma JammedBy(st: OutboxState, k: TripKey, d: Entry)
    requires DeleteHeads(st, k, d) && Jams(st, k, d)
    ensures Jammed(st, k, d.id)
  {
  }

  lemma IsFree(st: OutboxState, k: TripKey, d: Entry, i: nat)
    requires Numbers(st) && DeleteHeads(st, k, d) && !Jams(st, k, d) && i < |st.entries| && st.entries[i] == d
    ensures Free(st, k, i)
  {
    forall j | 0 <= j < |st.entries| && j != i ensures !InLane(st.entries[j], k) {
      assert st.entries[j] in st.entries && st.entries[j].id != d.id;
    }
    assert InLane(d, k);
  }

  lemma NotStuck(st: OutboxState, k: TripKey, i: nat, now: Time)
    requires i < |st.entries| && InLane(st.entries[i], k) && Ready(st, i, now)
    ensures !LaneStuck(st, k)
  {
  }
}
