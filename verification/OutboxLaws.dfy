/** What every operation of the outbox means for the entries, the dead letters and the clock, said without the functions
    that compute it; and over every sequence of operations, that no wait is longer than the policy allows. */
module OutboxLaws {
  import opened Basics
  import opened Commands
  import opened TripServer
  import opened OutboxModel
  import opened Link
  import opened LinkGiveUp
  import opened OutboxStuck
  import LinkCancel

  function Lesser(a: int, b: int): int {
    if a <= b then a else b
  }

  // ---- a failure that passes ---------------------------------------------------------------------

  /** Nobody knows whether the request arrived, and sending it again may help. */
  predicate Passing(error: ApiError) {
    error.Transport? || (error.Http? && (error.status in {408, 425, 429} || 500 <= error.status < 600))
  }

  /** What a passing failure makes of the entry. */
  predicate PutOff(e: Entry, e': Entry, now: Time, wait: int) {
    e' == e.(inFlight := false, failures := e.failures + 1, notBefore := Some(now + wait))
  }

  lemma OwnIndex(es: seq<Entry>, e: Entry)
    requires Sorted(es) && e in es
    ensures IndexOf(es, e.id) < |es| && es[IndexOf(es, e.id)] == e
  {
    var i := IndexOf(es, e.id);
    var j :| 0 <= j < |es| && es[j] == e;
  }

  lemma PassingIsRetried(policy: RetryPolicy, error: ApiError, c: Command)
    ensures policy.Decide(error, c).Retry? <==> Passing(error)
  {
  }

  /** The entry stays in its place to be sent again, no later than the longest delay from now; nothing else changes. */
  lemma PassingFailure(policy: RetryPolicy, st: OutboxState, e: Entry, error: ApiError, now: Time)
    returns (i: nat, wait: nat, e': Entry)
    requires Numbers(st) && e in st.entries && Passing(error)
    ensures i < |st.entries| && st.entries[i] == e && PutOff(e, e', now, wait)
    ensures Complete(policy, st, e.id, Failed(error), now) == st.(entries := st.entries[i := e'])
    ensures wait <= policy.maxDelay
    ensures e.failures == 0 ==> wait == Lesser(policy.maxDelay, policy.initialDelay)
  {
    OwnIndex(st.entries, e);
    PassingIsRetried(policy, error, e.command);
    i := IndexOf(st.entries, e.id);
    wait := policy.Delay(e.failures + 1);
    e' := e.(inFlight := false, failures := e.failures + 1, notBefore := Some(now + wait));
    assert Pow2(0) == 1;
  }

  /** One failure later the wait has doubled, as long as the longest delay allows, up to the thirty-first; from then on it
      stays. `a` and `b` are entries after their failures, `a` having failed once less. */
  lemma WaitsDouble(policy: RetryPolicy, st1: OutboxState, e1: Entry, now1: Time, st2: OutboxState, e2: Entry, now2: Time,
                    error1: ApiError, error2: ApiError, a: Entry, b: Entry)
    requires Numbers(st1) && e1 in st1.entries && Passing(error1)
    requires Numbers(st2) && e2 in st2.entries && Passing(error2) && e2.failures == e1.failures + 1
    requires a in Complete(policy, st1, e1.id, Failed(error1), now1).entries && a.id == e1.id
    requires b in Complete(policy, st2, e2.id, Failed(error2), now2).entries && b.id == e2.id
    ensures a.notBefore.Some? && b.notBefore.Some?
    ensures var first, second := a.notBefore.value - now1, b.notBefore.value - now2;
            second == if e1.failures < 30 then Lesser(policy.maxDelay, 2 * first) else first
  {
    var i1, wait1, a' := PassingFailure(policy, st1, e1, error1, now1);
    var i2, wait2, b' := PassingFailure(policy, st2, e2, error2, now2);
    OnlyOne(st1.entries, i1, a', a);
    OnlyOne(st2.entries, i2, b', b);
    PassingWait(policy, st1, e1, error1, now1, a);
    PassingWait(policy, st2, e2, error2, now2, b);
    if e1.failures < 30 {
      Doubles(policy, e1.failures + 1);
    }
  }

  lemma OnlyOne(es: seq<Entry>, i: nat, e': Entry, x: Entry)
    requires Sorted(es) && i < |es| && e'.id == es[i].id && x in es[i := e'] && x.id == e'.id
    ensures x == e'
  {
    assert forall j :: 0 <= j < |es| && j != i ==> es[j].id != es[i].id;
  }

  lemma PassingWait(policy: RetryPolicy, st: OutboxState, e: Entry, error: ApiError, now: Time, x: Entry)
    requires Numbers(st) && e in st.entries && Passing(error)
    requires x in Complete(policy, st, e.id, Failed(error), now).entries && x.id == e.id
    ensures x.notBefore == Some(now + policy.Delay(e.failures + 1))
  {
    OwnIndex(st.entries, e);
    PassingIsRetried(policy, error, e.command);
    var i := IndexOf(st.entries, e.id);
    hide RetryPolicy.Delay;
    OnlyOne(st.entries, i, e.(inFlight := false, failures := e.failures + 1,
                              notBefore := Some(now + policy.Delay(e.failures + 1))), x);
  }

  lemma Doubles(policy: RetryPolicy, n: nat)
    requires 1 <= n <= 30
    ensures policy.Delay(n + 1) == Lesser(policy.maxDelay, 2 * policy.Delay(n))
  {
    TwiceAsLong(policy.initialDelay, Pow2(n - 1));
  }

  lemma TwiceAsLong(a: nat, b: nat)
    ensures a * (2 * b) == 2 * (a * b)
  {
  }

  /** The delays in use: 5 s, 10 s, and so on up to 15 min, which the ninth failure reaches. */
  lemma DefaultWaits(st: OutboxState, e: Entry, error: ApiError, now: Time) returns (wait: nat)
    requires Numbers(st) && e in st.entries && Passing(error)
    ensures exists e' :: e' in Complete(DefaultRetry, st, e.id, Failed(error), now).entries && PutOff(e, e', now, wait)
    ensures 5_000 <= wait <= 900_000 && (wait == 900_000 <==> e.failures >= 8)
    ensures e.failures == 0 ==> wait == 5_000
  {
    var i, w, e' := PassingFailure(DefaultRetry, st, e, error, now);
    wait := w;
    assert e' == st.entries[i := e'][i];
    PassingWait(DefaultRetry, st, e, error, now, e');
    var n := if e.failures < 30 then e.failures else 30;
    PowersGrow(0, n);
    assert Pow2(7) == 128 && Pow2(8) == 256;
    if n < 8 {
      PowersGrow(n, 7);
    } else {
      PowersGrow(8, n);
    }
  }

  lemma {:induction false} PowersGrow(m: nat, n: nat)
    requires m <= n
    ensures 1 <= Pow2(m) <= Pow2(n)
    decreases n
  {
    if m < n {
      PowersGrow(m, n - 1);
    } else if m > 0 {
      PowersGrow(m - 1, m - 1);
    }
  }

  // ---- every other outcome -----------------------------------------------------------------------

  predicate Forbidden(error: ApiError) {
    error.Http? && (error.status == 401 || error.status == 403)
  }

  /** The server has what the command asks for. */
  predicate Settled(o: Outcome, c: Command) {
    match o
    case TripCreated(_) => true
    case Delivered => true
    case Failed(Http(status)) => status == 404 && c.DeleteTrip?
    case Failed(Decoding) => !c.CreateTrip?
    case Failed(_) => false
  }

  /** Neither to be sent again nor settled nor a matter of the credentials. */
  predicate Hopeless(o: Outcome, c: Command) {
    o.Failed? && !Settled(o, c) && !Passing(o.error) && !Forbidden(o.error)
  }

  /** Without credentials the entry keeps its failures and its delay, and everything waits until resumed. */
  lemma ForbiddenPauses(policy: RetryPolicy, st: OutboxState, e: Entry, error: ApiError, now: Time) returns (i: nat)
    requires Numbers(st) && e in st.entries && Forbidden(error)
    ensures i < |st.entries| && st.entries[i] == e
    ensures Complete(policy, st, e.id, Failed(error), now)
            == st.(entries := st.entries[i := e.(inFlight := false)], paused := true)
  {
    OwnIndex(st.entries, e);
    i := IndexOf(st.entries, e.id);
  }

  /** Only a failure for want of credentials pauses the outbox, and only resuming makes it go on. */
  lemma PausedExactlyWhen(st: OutboxState, op: Op)
    requires Numbers(st) && Allowed(st, op)
    ensures After(st, op).paused <==>
              || (st.paused && !op.GoOn?)
              || (op.Learn? && op.outcome.Failed? && Forbidden(op.outcome.error))
  {
    hide Remaining, Without, Orphans, MergeTarget, FirstReady, RetryPolicy.Delay;
    match op
    case Put(c, now) =>
      if c.UploadGps? {
        AppendsOnly(st, c.owner, c.points, now);
      }
    case Learn(policy, id, o, now) =>
    case _ =>
  }

  lemma {:induction false} AppendsOnly(st: OutboxState, owner: Option<TripKey>, points: seq<GpsPoint>, now: Time)
    ensures var st' := AppendAll(st, owner, points, now);
            && st'.paused == st.paused && st'.tripIds == st.tripIds && st'.deadLetters == st.deadLetters
            && st.entries <= st'.entries && st'.nextId - st.nextId == |st'.entries| - |st.entries|
            && forall i :: |st.entries| <= i < |st'.entries| ==>
                 st'.entries[i] == Entry(st.nextId + i - |st.entries|, st'.entries[i].command, now, 0, None, false)
    decreases |points|
  {
    if points != [] {
      var n := if |points| < MAX_GPS_POINTS then |points| else MAX_GPS_POINTS;
      AppendsOnly(Append(st, UploadGps(owner, points[..n]), now), owner, points[n..], now);
    }
  }

  /** The id table after a settled command: a create's answer brings an id, a delete takes one away. */
  function IdsThen(ids: map<TripKey, int>, c: Command, o: Outcome): map<TripKey, int> {
    if o.TripCreated? && c.CreateTrip? then ids[c.key := o.id]
    else if !o.TripCreated? && c.DeleteTrip? then ids - {c.key}
    else ids
  }

  /** A settled command leaves, and the id table learns what it says of the trip. */
  lemma SettledLeaves(policy: RetryPolicy, st: OutboxState, e: Entry, o: Outcome, now: Time)
    requires Numbers(st) && e in st.entries && Settled(o, e.command)
    ensures var st' := Complete(policy, st, e.id, o, now);
            && (forall x :: x in st'.entries <==> x in st.entries && x != e) && Sorted(st'.entries)
            && st' == st.(entries := st'.entries, tripIds := IdsThen(st.tripIds, e.command, o))
  {
    OwnIndex(st.entries, e);
    Dropped(st.entries, IndexOf(st.entries, e.id));
    SettledShape(policy, st, e, o, now);
    hide *;
  }

  lemma SettledShape(policy: RetryPolicy, st: OutboxState, e: Entry, o: Outcome, now: Time)
    requires IndexOf(st.entries, e.id) < |st.entries| && st.entries[IndexOf(st.entries, e.id)] == e && Settled(o, e.command)
    ensures Complete(policy, st, e.id, o, now)
            == st.(entries := RemoveAt(st.entries, IndexOf(st.entries, e.id)), tripIds := IdsThen(st.tripIds, e.command, o))
  {
    hide RemoveAt, IndexOf, Without, Orphans, RetryPolicy.Delay;
  }

  lemma Dropped(es: seq<Entry>, i: nat)
    requires Sorted(es) && i < |es|
    ensures forall x :: x in RemoveAt(es, i) <==> x in es && x != es[i]
    ensures Sorted(RemoveAt(es, i))
  {
    forall x ensures x in RemoveAt(es, i) <==> x in es && x != es[i] {
      if x in es && x != es[i] {
        var j :| 0 <= j < |es| && es[j] == x;
        assert RemoveAt(es, i)[if j < i then j else j - 1] == x;
      }
      if x in RemoveAt(es, i) {
        var j :| 0 <= j < |es| - 1 && RemoveAt(es, i)[j] == x;
        assert es[if j < i then j else j + 1] == x;
      }
    }
  }

  /** The letter is that of an entry that left the queue with its trip, and was no delete. */
  predicate IsLetterOfDropped(letter: DeadLetter, before: seq<Entry>, after: seq<Entry>, now: Time) {
    exists x :: x in before && x !in after && !x.command.DeleteTrip? && letter.command == x.command && letter.at == now
  }

  /** Nothing is given up in silence: a hopeless command, and with a create everything of its trip, leaves the queue with a
      dead letter each, deletes alone without; everything else stays. */
  lemma HopelessIsReported(policy: RetryPolicy, st: OutboxState, e: Entry, o: Outcome, now: Time)
    requires Numbers(st) && e in st.entries && Hopeless(o, e.command)
    ensures var st' := Complete(policy, st, e.id, o, now);
            && st' == st.(entries := st'.entries, deadLetters := st'.deadLetters) && Sorted(st'.entries)
            && (forall x :: x in st'.entries <==>
                  x in st.entries && x != e && !(e.command.CreateTrip? && x.command.Of(e.command.key)))
            && |st'.deadLetters| > |st.deadLetters| && st'.deadLetters[..|st.deadLetters|] == st.deadLetters
            && st'.deadLetters[|st.deadLetters|] == DeadLetter(e.command, Rejected(o.error.Status()), now)
            && (forall x :: x in st.entries && x !in st'.entries && x != e && !x.command.DeleteTrip? ==>
                  DeadLetter(x.command, TripRejected(e.command.key), now) in st'.deadLetters)
            && forall letter :: letter in st'.deadLetters[|st.deadLetters| + 1..] ==>
                 IsLetterOfDropped(letter, st.entries, st'.entries, now)
  {
    OwnIndex(st.entries, e);
    var i := IndexOf(st.entries, e.id);
    var rest := RemoveAt(st.entries, i);
    Dropped(st.entries, i);
    HopelessShape(policy, st, e, o, now);
    hide Numbers, RemoveAt, IndexOf, Complete, Hopeless, Sorted;
    if e.command.CreateTrip? {
      WithoutMembers(rest, e.command.key);
      WithoutSorted(rest, e.command.key);
      LettersOf(rest, e.command.key, now);
    }
    hide Without, Orphans;
  }

  lemma HopelessShape(policy: RetryPolicy, st: OutboxState, e: Entry, o: Outcome, now: Time)
    requires IndexOf(st.entries, e.id) < |st.entries| && st.entries[IndexOf(st.entries, e.id)] == e && Hopeless(o, e.command)
    ensures var rest := RemoveAt(st.entries, IndexOf(st.entries, e.id));
            var letters := st.deadLetters + [DeadLetter(e.command, Rejected(o.error.Status()), now)];
            Complete(policy, st, e.id, o, now)
            == if e.command.CreateTrip?
               then st.(entries := Without(rest, e.command.key), deadLetters := letters + Orphans(rest, e.command.key, now))
               else st.(entries := rest, deadLetters := letters)
  {
    hide RemoveAt, IndexOf, Without, Orphans, RetryPolicy.Delay;
  }

  lemma {:induction false} LettersOf(es: seq<Entry>, k: TripKey, now: Time)
    ensures forall x :: x in es && x.command.Of(k) && !x.command.DeleteTrip? ==>
              DeadLetter(x.command, TripRejected(k), now) in Orphans(es, k, now)
    ensures forall letter :: letter in Orphans(es, k, now) ==>
              exists x :: x in es && x.command.Of(k) && !x.command.DeleteTrip? && letter == DeadLetter(x.command, TripRejected(k), now)
  {
    if es != [] {
      LettersOf(es[..|es| - 1], k, now);
      assert es == es[..|es| - 1] + [es[|es| - 1]];
    }
  }

  // ---- putting in --------------------------------------------------------------------------------

  /** The last entry of the command's lane can still take it in: it has not left, and it is a change of the same trip or
      of the same attempt. */
  predicate TakesIn(es: seq<Entry>, i: nat, c: Command) {
    && i < |es| && es[i].command.LaneOf() == c.LaneOf() && !es[i].inFlight
    && (forall j :: i < j < |es| ==> es[j].command.LaneOf() != c.LaneOf())
    && ((c.UpdateTrip? && es[i].command.UpdateTrip?)
        || (c.UpsertAttempt? && es[i].command.UpsertAttempt? && es[i].command.upsert.legId == c.upsert.legId
            && es[i].command.upsert.Seq() == c.upsert.Seq()))
  }

  /** The newer value where there is one. */
  predicate Overlaid<T(==)>(older: Option<T>, newer: Option<T>, both: Option<T>) {
    both == if newer.Some? then newer else older
  }

  predicate BothIn(older: Command, newer: Command, both: Command) {
    && both.LaneOf() == older.LaneOf()
    && match newer
       case UpdateTrip(_, p) =>
         && older.UpdateTrip? && both.UpdateTrip?
         && Overlaid(older.patch.leftHomeAt, p.leftHomeAt, both.patch.leftHomeAt)
         && Overlaid(older.patch.arrivedAt, p.arrivedAt, both.patch.arrivedAt)
       case UpsertAttempt(_, u) =>
         && older.UpsertAttempt? && both.UpsertAttempt?
         && var (a, b) := (older.upsert, both.upsert);
            && b.legId == a.legId && Overlaid(a.attemptSeq, u.attemptSeq, b.attemptSeq)
            && Overlaid(a.arrivedAtStopAt, u.arrivedAtStopAt, b.arrivedAtStopAt)
            && Overlaid(a.scheduledAt, u.scheduledAt, b.scheduledAt)
            && Overlaid(a.departureAt, u.departureAt, b.departureAt)
            && Overlaid(a.alightedAt, u.alightedAt, b.alightedAt)
            && Overlaid(a.result, u.result, b.result) && Overlaid(a.notes, u.notes, b.notes)
       case _ => false
  }

  /** A command goes into the last entry of its lane exactly when that can take it in; otherwise it comes last, untried. */
  lemma PutInExactlyWhen(st: OutboxState, c: Command, now: Time)
    requires !c.UploadGps?
    ensures var st' := Enqueue(st, c, now);
            && st' == st.(entries := st'.entries, nextId := st'.nextId)
            && (forall i: nat :: TakesIn(st.entries, i, c) ==>
                  && st'.nextId == st.nextId && |st'.entries| == |st.entries|
                  && BothIn(st.entries[i].command, c, st'.entries[i].command)
                  && st'.entries == st.entries[i := st.entries[i].(command := st'.entries[i].command)])
            && ((forall i: nat :: !TakesIn(st.entries, i, c)) ==>
                  && st'.nextId == st.nextId + 1
                  && st'.entries == st.entries + [Entry(st.nextId, c, now, 0, None, false)])
  {
    var t := MergeTarget(st.entries, c);
    if 0 <= t {
      assert TakesIn(st.entries, t, c);
    }
    forall i: nat | TakesIn(st.entries, i, c) ensures i == t {
      TakesInTarget(st.entries, i, c);
    }
  }

  lemma TakesInTarget(es: seq<Entry>, i: nat, c: Command)
    requires TakesIn(es, i, c)
    ensures MergeTarget(es, c) == i
  {
    LastIs(es, i, c.LaneOf());
  }

  lemma {:induction false} LastIs(es: seq<Entry>, i: nat, lane: Lane)
    requires i < |es| && es[i].command.LaneOf() == lane
    requires forall j :: i < j < |es| ==> es[j].command.LaneOf() != lane
    ensures LastOf(es, lane) == i
    decreases |es|
  {
    if i < |es| - 1 {
      LastIs(es[..|es| - 1], i, lane);
    }
  }

  lemma SliceOfRest<T>(s: seq<T>, n: nat, low: nat, high: nat)
    requires low <= high && n + high <= |s|
    ensures s[n..][low..high] == s[n + low..n + high]
  {
  }

  /** An upload is cut into entries of at most 500 points, all but the last full, that come last, untried. */
  lemma {:induction false} UploadIsCut(st: OutboxState, owner: Option<TripKey>, points: seq<GpsPoint>, now: Time)
    ensures var st' := Enqueue(st, UploadGps(owner, points), now);
            && st' == st.(entries := st'.entries, nextId := st'.nextId) && st.entries <= st'.entries
            && |st'.entries| - |st.entries| == st'.nextId - st.nextId == (|points| + 499) / 500
            && forall n :: 0 <= n < |st'.entries| - |st.entries| ==>
                 var low, high := 500 * n, Lesser(500 * n + 500, |points|);
                 0 <= low < high && st'.entries[|st.entries| + n]
                                    == Entry(st.nextId + n, UploadGps(owner, points[low..high]), now, 0, None, false)
    decreases |points|
  {
    if points != [] {
      var n := if |points| < MAX_GPS_POINTS then |points| else MAX_GPS_POINTS;
      var mid := Append(st, UploadGps(owner, points[..n]), now);
      UploadIsCut(mid, owner, points[n..], now);
      var st' := Enqueue(st, UploadGps(owner, points), now);
      assert st' == Enqueue(mid, UploadGps(owner, points[n..]), now);
      forall m | 0 <= m < |st'.entries| - |st.entries|
        ensures var low, high := 500 * m, Lesser(500 * m + 500, |points|);
                0 <= low < high && st'.entries[|st.entries| + m]
                                   == Entry(st.nextId + m, UploadGps(owner, points[low..high]), now, 0, None, false)
      {
        if m > 0 {
          var low, high := 500 * (m - 1), Lesser(500 * (m - 1) + 500, |points[n..]|);
          assert st'.entries[|mid.entries| + (m - 1)]
                 == Entry(mid.nextId + (m - 1), UploadGps(owner, points[n..][low..high]), now, 0, None, false);
          assert n == 500;
          SliceOfRest(points, n, low, high);
        }
      }
    }
  }

  // ---- sending -----------------------------------------------------------------------------------

  /** The request for the command, written with the trip's id where it needs one. */
  predicate Carries(ids: map<TripKey, int>, c: Command, r: Request) {
    match c
    case CreateTrip(k, date) => r == CreateReq(k.routeId, date, k.leftHomeAt)
    case UpdateTrip(k, p) => k in ids && r == UpdateReq(ids[k], p)
    case UpsertAttempt(k, u) => k in ids && r == UpsertReq(ids[k], u)
    case UploadGps(owner, points) =>
      if owner.None? then r == UploadReq(None, points) else owner.value in ids && r == UploadReq(Some(ids[owner.value]), points)
    case DeleteTrip(k) => k in ids && r == DeleteReq(ids[k])
  }

  /** Nothing stands in the way of entry `i`: it is first in its lane, waits for no answer and no delay, knows the id it
      needs, and, if it is a delete, nothing else of its trip is left. */
  ghost predicate Free(st: OutboxState, i: nat, now: Time) {
    && i < |st.entries|
    && var e := st.entries[i];
       && !e.inFlight && (e.notBefore.None? || e.notBefore.value <= now)
       && (forall j :: 0 <= j < i ==> st.entries[j].command.LaneOf() != e.command.LaneOf())
       && (e.command.DeleteTrip? ==>
             forall j :: 0 <= j < |st.entries| && j != i ==> st.entries[j].command.TripKeyOf() != Some(e.command.key))
       && exists r :: Carries(st.tripIds, e.command, r)
  }

  lemma FreeIsReady(st: OutboxState, i: nat, now: Time)
    requires Sorted(st.entries) && i < |st.entries|
    ensures Free(st, i, now) <==> Ready(st, i, now)
    ensures Ready(st, i, now) ==> Carries(st.tripIds, st.entries[i].command, Resolve(st.tripIds, st.entries[i].command).value)
  {
    var c := st.entries[i].command;
    if Resolve(st.tripIds, c).Some? {
      assert Carries(st.tripIds, c, Resolve(st.tripIds, c).value);
    }
    assert forall j :: 0 <= j < |st.entries| && j != i ==> st.entries[j].id != st.entries[i].id;
  }

  /** What leaves is the oldest entry with nothing in its way; nothing leaves while paused or if there is none. */
  lemma SentExactlyWhen(st: OutboxState, now: Time)
    requires Sorted(st.entries)
    ensures var (st', d) := Next(st, now);
            && (d.Some? <==> !st.paused && exists i: nat :: Free(st, i, now))
            && (d.None? ==> st' == st)
            && (d.Some? ==> exists i: nat ::
                  && Free(st, i, now) && (forall j: nat :: j < i ==> !Free(st, j, now))
                  && d.value.entryId == st.entries[i].id && Carries(st.tripIds, st.entries[i].command, d.value.request)
                  && st' == st.(entries := st.entries[i := st.entries[i].(inFlight := true)]))
  {
    hide Free, Ready, Carries, Resolve;
    var i := FirstReady(st, now, 0);
    forall j: nat | j < |st.entries| ensures Free(st, j, now) <==> Ready(st, j, now) {
      FreeIsReady(st, j, now);
    }
    forall j: nat | Free(st, j, now) ensures j < |st.entries| {
      FreeIsThere(st, j, now);
    }
    if i < |st.entries| {
      FreeIsReady(st, i, now);
    }
  }

  lemma FreeIsThere(st: OutboxState, i: nat, now: Time)
    requires Free(st, i, now)
    ensures i < |st.entries|
  {
  }

  // ---- cancelling --------------------------------------------------------------------------------

  /** The trip's create has left at least once. */
  predicate CreateWasOut(es: seq<Entry>, k: TripKey) {
    exists c :: c in es && IsCreateOf(c.command, k) && (c.inFlight || c.failures > 0)
  }

  /** Of a cancelled trip there stays what is on its way, a delete, and a create that has left before; a delete is added
      at the end unless there is one, or the server cannot have the trip. All else stays, in order. */
  lemma CancelledLeaves(st: OutboxState, k: TripKey, now: Time)
    requires Numbers(st)
    ensures var st' := Discard(st, k, now);
            var out := CreateWasOut(st.entries, k);
            var adds := (k in st.tripIds || out) && forall x :: x in st.entries ==> x.command != DeleteTrip(k);
            && st' == st.(entries := st'.entries, nextId := st'.nextId) && Sorted(st'.entries)
            && st'.nextId == (if adds then st.nextId + 1 else st.nextId)
            && forall x :: x in st'.entries <==>
                 || (x in st.entries
                     && (!x.command.Of(k) || x.inFlight || x.command.DeleteTrip? || (x.command.CreateTrip? && out)))
                 || (adds && x == Entry(st.nextId, DeleteTrip(k), now, 0, None, false))
  {
    OutIsSeen(st.entries, k);
    DeleteIsSeen(st.entries, k);
    var landed := CreateMayHaveLanded(st.entries, k);
    LinkCancel.RemainingMembers(st.entries, k, landed);
    LinkCancel.RemainingSorted(st.entries, k, landed);
    hide CreateMayHaveLanded, CreateWasOut, Deleting, Remaining;
    var r := Remaining(st.entries, k, landed);
    forall i | 0 <= i < |r| ensures r[i].id < st.nextId {
      assert r[i] in r;
    }
  }

  lemma OutIsSeen(es: seq<Entry>, k: TripKey)
    ensures CreateMayHaveLanded(es, k) <==> CreateWasOut(es, k)
  {
    if c :| c in es && IsCreateOf(c.command, k) && (c.inFlight || c.failures > 0) {
      var i :| 0 <= i < |es| && es[i] == c;
    }
    if i :| 0 <= i < |es| && es[i].command.CreateTrip? && es[i].command.key == k && (es[i].inFlight || es[i].failures > 0) {
      assert es[i] in es && IsCreateOf(es[i].command, k);
    }
  }

  lemma DeleteIsSeen(es: seq<Entry>, k: TripKey)
    ensures Deleting(es, k) <==> exists x :: x in es && x.command == DeleteTrip(k)
  {
    if i :| 0 <= i < |es| && es[i].command == DeleteTrip(k) {
      assert es[i] in es;
    }
    if x :| x in es && x.command == DeleteTrip(k) {
      var i :| 0 <= i < |es| && es[i] == x;
    }
  }

  // ---- over every sequence of operations ---------------------------------------------------------

  /** The operation reports a passing failure of the entry. */
  predicate PutsOff(op: Op, id: nat) {
    op.Learn? && op.id == id && op.outcome.Failed? && Passing(op.outcome.error)
  }

  /** Where an entry comes from: it is new and untried, or it was there with the same number and waits for nothing new
      unless its own failure is reported. */
  predicate ComesFrom(e: Entry, o: Entry) {
    e.id == o.id && e.failures == o.failures && (e.notBefore == o.notBefore || e.notBefore.None?)
  }

  predicate Untried(e: Entry) {
    e.failures == 0 && e.notBefore.None? && !e.inFlight
  }

  predicate WaitsFor(op: Op, e: Entry) {
    PutsOff(op, e.id) && e.notBefore.Some? && op.now <= e.notBefore.value <= op.now + op.policy.maxDelay
  }

  ghost predicate Explained(es: seq<Entry>, op: Op, e: Entry) {
    || Untried(e)
    || WaitsFor(op, e)
    || (!PutsOff(op, e.id) && exists o :: o in es && ComesFrom(e, o))
  }

  lemma OpExplained(st: OutboxState, op: Op, e: Entry)
    requires Numbers(st) && Allowed(st, op) && e in After(st, op).entries
    ensures Explained(st.entries, op, e)
  {
    hide Numbers, Untried, Enqueue, Discard, Complete, Next, WaitsFor;
    match op
    case Put(c, now) => PutExplained(st, c, now, e);
    case Withdraw(k, now) => CancelExplained(st, k, now, e);
    case Pick(now) => PickExplained(st, now, e);
    case Learn(policy, id, o, now) => LearnExplained(st, policy, id, o, now, e);
    case Hurry => FlagExplained(st, After(st, op), op, e);
    case Reload => FlagExplained(st, After(st, op), op, e);
    case _ => assert ComesFrom(e, e);
  }

  lemma FlagExplained(st: OutboxState, st': OutboxState, op: Op, e: Entry)
    requires e in st'.entries && |st'.entries| == |st.entries| && !op.Learn?
    requires forall i :: 0 <= i < |st.entries| ==> ComesFrom(st'.entries[i], st.entries[i])
    ensures Explained(st.entries, op, e)
  {
    var i :| 0 <= i < |st'.entries| && st'.entries[i] == e;
    assert st.entries[i] in st.entries;
  }

  lemma PutExplained(st: OutboxState, c: Command, now: Time, e: Entry)
    requires e in Enqueue(st, c, now).entries
    ensures Explained(st.entries, Put(c, now), e)
  {
    hide MergeTarget, Merged;
    var st' := Enqueue(st, c, now);
    var i :| 0 <= i < |st'.entries| && st'.entries[i] == e;
    if c.UploadGps? {
      AppendsOnly(st, c.owner, c.points, now);
    }
    if i < |st.entries| {
      assert st.entries[i] in st.entries && ComesFrom(e, st.entries[i]);
    }
  }

  lemma CancelExplained(st: OutboxState, k: TripKey, now: Time, e: Entry)
    requires Numbers(st) && e in Discard(st, k, now).entries
    ensures Explained(st.entries, Withdraw(k, now), e)
  {
    CancelledLeaves(st, k, now);
    hide Discard, CreateWasOut, Numbers;
    if e in st.entries {
      assert ComesFrom(e, e);
    }
  }

  lemma PickExplained(st: OutboxState, now: Time, e: Entry)
    requires e in Next(st, now).0.entries
    ensures Explained(st.entries, Pick(now), e)
  {
    hide FirstReady, Resolve;
    var st' := Next(st, now).0;
    FlagExplained(st, st', Pick(now), e);
  }

  lemma LearnExplained(st: OutboxState, policy: RetryPolicy, id: nat, o: Outcome, now: Time, e: Entry)
    requires Numbers(st) && Allowed(st, Learn(policy, id, o, now)) && e in Complete(policy, st, id, o, now).entries
    ensures Explained(st.entries, Learn(policy, id, o, now), e)
  {
    hide Complete, Passing, Forbidden, Numbers;
    var x := st.entries[IndexOf(st.entries, id)];
    if o.Failed? && Passing(o.error) {
      var i, wait, x' := PassingFailure(policy, st, x, o.error, now);
      NumbersSorted(st);
      if e.id == id {
        OnlyOne(st.entries, i, x', e);
      } else {
        var j :| 0 <= j < |st.entries| && st.entries[i := x'][j] == e;
        assert ComesFrom(e, e);
      }
    } else if o.Failed? && Forbidden(o.error) {
      var i := ForbiddenPauses(policy, st, x, o.error, now);
      var j :| 0 <= j < |st.entries| && st.entries[i := x.(inFlight := false)][j] == e;
      assert st.entries[j] in st.entries && ComesFrom(e, st.entries[j]);
    } else if Settled(o, x.command) {
      SettledLeaves(policy, st, x, o, now);
      assert ComesFrom(e, e);
    } else {
      HopelessIsReported(policy, st, x, o, now);
      assert ComesFrom(e, e);
    }
  }

  lemma NumbersSorted(st: OutboxState)
    requires Numbers(st)
    ensures Sorted(st.entries)
  {
  }

  lemma SameNumbered(st: OutboxState, st': OutboxState)
    requires Numbers(st) && |st'.entries| == |st.entries| && st'.nextId == st.nextId
    requires forall i :: 0 <= i < |st.entries| ==> st'.entries[i].id == st.entries[i].id
    ensures Numbers(st')
  {
    forall e | e in st'.entries ensures e.id < st.nextId {
      var i :| 0 <= i < |st'.entries| && st'.entries[i] == e;
      assert st.entries[i] in st.entries;
    }
  }

  lemma LearnNumbers(st: OutboxState, policy: RetryPolicy, id: nat, o: Outcome, now: Time)
    requires Numbers(st) && Allowed(st, Learn(policy, id, o, now))
    ensures Numbers(Complete(policy, st, id, o, now))
  {
    hide Complete, Passing, Forbidden;
    var x := st.entries[IndexOf(st.entries, id)];
    if o.Failed? && Passing(o.error) {
      var i, wait, x' := PassingFailure(policy, st, x, o.error, now);
      SameNumbered(st, Complete(policy, st, id, o, now));
    } else if o.Failed? && Forbidden(o.error) {
      var i := ForbiddenPauses(policy, st, x, o.error, now);
      SameNumbered(st, Complete(policy, st, id, o, now));
    } else if Settled(o, x.command) {
      SettledLeaves(policy, st, x, o, now);
    } else {
      HopelessIsReported(policy, st, x, o, now);
    }
  }

  lemma PutNumbers(st: OutboxState, c: Command, now: Time)
    requires Numbers(st)
    ensures Numbers(Enqueue(st, c, now))
  {
    hide MergeTarget, Merged;
    if c.UploadGps? {
      AppendsOnly(st, c.owner, c.points, now);
      GrownNumbers(st, AppendAll(st, c.owner, c.points, now));
    } else if MergeTarget(st.entries, c) >= 0 {
      SameNumbered(st, Enqueue(st, c, now));
    }
  }

  lemma GrownNumbers(st: OutboxState, st': OutboxState)
    requires Numbers(st) && st.entries <= st'.entries && st'.nextId - st.nextId == |st'.entries| - |st.entries|
    requires forall i :: |st.entries| <= i < |st'.entries| ==> st'.entries[i].id == st.nextId + i - |st.entries|
    ensures Numbers(st')
  {
    forall i | 0 <= i < |st'.entries|
      ensures st'.entries[i].id < st'.nextId && (i < |st.entries| ==> st'.entries[i].id < st.nextId)
    {
      if i < |st.entries| {
        assert st'.entries[i] == st.entries[i] && st.entries[i] in st.entries;
      }
    }
    forall i, j | 0 <= i < j < |st'.entries| ensures st'.entries[i].id < st'.entries[j].id {
      if j < |st.entries| {
        assert st'.entries[i] == st.entries[i] && st'.entries[j] == st.entries[j];
      }
    }
  }

  lemma OpNumbers(st: OutboxState, op: Op)
    requires Numbers(st) && Allowed(st, op)
    ensures Numbers(After(st, op))
  {
    hide Enqueue, Discard, Complete, FirstReady;
    match op
    case Put(c, now) => PutNumbers(st, c, now);
    case Withdraw(k, now) => CancelledLeaves(st, k, now);
    case Learn(policy, id, o, now) => LearnNumbers(st, policy, id, o, now);
    case _ => SameNumbered(st, After(st, op));
  }

  /** The last passing failure of the entry is `i`, and its wait is over at most the longest delay after it. */
  ghost predicate WaitKnown(ops: seq<Op>, e: Entry, i: nat) {
    && i < |ops| && WaitsFor(ops[i], e) && forall j :: i < j < |ops| ==> !PutsOff(ops[j], e.id)
  }

  /** Over every sequence of operations from an empty outbox: an entry that waits does so since its last passing failure,
      and may leave again no later than the longest delay after that. */
  lemma {:induction false} WaitsAreShort(ops: seq<Op>, e: Entry)
    requires AllAllowed(EmptyOutbox, ops) && e in AfterAll(EmptyOutbox, ops).entries
    ensures e.notBefore.Some? ==> exists i: nat :: WaitKnown(ops, e, i)
    decreases |ops|
  {
    hide After, Allowed, PutsOff, Numbers, WaitsFor;
    if ops != [] {
      var front, op := ops[..|ops| - 1], ops[|ops| - 1];
      var mid := AfterAll(EmptyOutbox, front);
      AllNumbers(front);
      OpExplained(mid, op, e);
      if WaitsFor(op, e) {
        assert WaitKnown(ops, e, |front|);
      } else if e.notBefore.Some? {
        var o :| o in mid.entries && ComesFrom(e, o);
        WaitsAreShort(front, o);
        var i: nat :| WaitKnown(front, o, i);
        SameWait(front[i], e, o);
        assert WaitKnown(ops, e, i);
      }
    }
  }

  lemma SameWait(op: Op, e: Entry, o: Entry)
    requires WaitsFor(op, o) && e.id == o.id && e.notBefore == o.notBefore
    ensures WaitsFor(op, e)
  {
  }

  lemma {:induction false} AllNumbers(ops: seq<Op>)
    requires AllAllowed(EmptyOutbox, ops)
    ensures Numbers(AfterAll(EmptyOutbox, ops))
    decreases |ops|
  {
    hide After, Allowed;
    if ops != [] {
      AllNumbers(ops[..|ops| - 1]);
      OpNumbers(AfterAll(EmptyOutbox, ops[..|ops| - 1]), ops[|ops| - 1]);
    }
  }

  // ---- waking up ---------------------------------------------------------------------------------

  /** While it is not paused, the outbox asks to be woken for the earliest retry that is still to come; paused, or with none
      to come, it does not ask. */
  lemma WakesExactlyWhen(st: OutboxState, now: Time, at: Time)
    ensures NextWakeAt(st, now) == Some(at) <==>
            && !st.paused && now < at && (exists e :: e in st.entries && e.notBefore == Some(at))
            && forall e :: e in st.entries && e.notBefore.Some? && now < e.notBefore.value ==> at <= e.notBefore.value
  {
    var w := EarliestAfter(st.entries, now);
    hide EarliestAfter;
    forall e | e in st.entries && e.notBefore.Some? && now < e.notBefore.value
      ensures w.Some? && w.value <= e.notBefore.value
    {
      var i :| 0 <= i < |st.entries| && st.entries[i] == e;
    }
  }
}
