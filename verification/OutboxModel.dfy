/** The offline outbox as a value: what every operation of Outbox.swift makes of the stored state.
    `OutboxQueue.Outbox` is the mutable outbox proved against these functions. */
module OutboxModel {
  import opened Basics
  import opened Commands
  import opened TripServer

  datatype Entry = Entry(
    id: nat, command: Command, enqueuedAt: Time, failures: nat, notBefore: Option<Time>, inFlight: bool)

  datatype Reason = Rejected(status: Option<int>) | TripRejected(key: TripKey)

  datatype DeadLetter = DeadLetter(command: Command, reason: Reason, at: Time)

  datatype OutboxState = OutboxState(
    entries: seq<Entry>, tripIds: map<TripKey, int>, deadLetters: seq<DeadLetter>, nextId: nat, paused: bool)

  const EmptyOutbox := OutboxState([], map[], [], 1, false)

  // ---- retry policy ----------------------------------------------------------------------------

  datatype ApiError = Http(status: int) | Transport | Decoding | InvalidRequest {
    function Status(): Option<int> {
      if Http? then Some(status) else None
    }
  }

  datatype Decision = Retry | Reject | Pause | TreatAsDelivered

  function Pow2(n: nat): nat {
    if n == 0 then 1 else 2 * Pow2(n - 1)
  }

  /** Delays in milliseconds. */
  datatype RetryPolicy = RetryPolicy(initialDelay: nat, maxDelay: nat) {
    function Delay(failures: nat): nat {
      if failures == 0 then 0
      else
        var grown := initialDelay * Pow2(if failures - 1 < 30 then failures - 1 else 30);
        if maxDelay < grown then maxDelay else grown
    }

    function Decide(error: ApiError, command: Command): Decision {
      match error
      case Transport => Retry
      case Http(status) =>
        if status == 401 || status == 403 then Pause
        else if status == 408 || status == 425 || status == 429 || 500 <= status <= 599 then Retry
        else if status == 404 && command.DeleteTrip? then TreatAsDelivered
        else Reject
      case Decoding => if command.CreateTrip? then Reject else TreatAsDelivered
      case InvalidRequest => Reject
    }
  }

  const DefaultRetry := RetryPolicy(5_000, 900_000)

  // ---- putting in ------------------------------------------------------------------------------

  function Append(st: OutboxState, c: Command, now: Time): OutboxState {
    st.(entries := st.entries + [Entry(st.nextId, c, now, 0, None, false)], nextId := st.nextId + 1)
  }

  /** The last entry of the lane, or -1. */
  function LastOf(es: seq<Entry>, lane: Lane): (i: int)
    ensures -1 <= i < |es|
    ensures 0 <= i ==> es[i].command.LaneOf() == lane
    ensures forall j :: i < j < |es| ==> es[j].command.LaneOf() != lane
  {
    if es == [] then -1
    else if es[|es| - 1].command.LaneOf() == lane then |es| - 1
    else LastOf(es[..|es| - 1], lane)
  }

  /** The one command that stands for `older` followed by `newer`, where the outbox knows one. */
  function Merged(older: Command, newer: Command): (r: Option<Command>)
    ensures r.Some? ==> r.value.LaneOf() == older.LaneOf() && r.value.TripKeyOf() == older.TripKeyOf()
  {
    match (older, newer)
    case (UpsertAttempt(k, a), UpsertAttempt(_, b)) =>
      if a.SameAttempt(b) then Some(UpsertAttempt(k, a.MergedWith(b))) else None
    case (UpdateTrip(k, a), UpdateTrip(_, b)) => Some(UpdateTrip(k, a.MergedWith(b)))
    case _ => None
  }

  function MergeTarget(es: seq<Entry>, c: Command): (i: int)
    ensures -1 <= i < |es|
    ensures 0 <= i ==> i == LastOf(es, c.LaneOf()) && !es[i].inFlight && Merged(es[i].command, c).Some?
  {
    var i := LastOf(es, c.LaneOf());
    if 0 <= i && !es[i].inFlight && Merged(es[i].command, c).Some? then i else -1
  }

  function AppendAll(st: OutboxState, owner: Option<TripKey>, points: seq<GpsPoint>, now: Time): OutboxState
    decreases |points|
  {
    if points == [] then st
    else
      var n := if |points| < MAX_GPS_POINTS then |points| else MAX_GPS_POINTS;
      AppendAll(Append(st, UploadGps(owner, points[..n]), now), owner, points[n..], now)
  }

  function Enqueue(st: OutboxState, c: Command, now: Time): OutboxState {
    if c.UploadGps? then AppendAll(st, c.owner, c.points, now)
    else
      var i := MergeTarget(st.entries, c);
      if 0 <= i
      then st.(entries := st.entries[i := st.entries[i].(command := Merged(st.entries[i].command, c).value)])
      else Append(st, c, now)
  }

  // ---- sending ---------------------------------------------------------------------------------

  predicate Heads(es: seq<Entry>, i: nat)
    requires i < |es|
  {
    forall j :: 0 <= j < i ==> es[j].command.LaneOf() != es[i].command.LaneOf()
  }

  /** A delete waits until nothing else of its trip is left in any lane. */
  predicate HeldBack(es: seq<Entry>, i: nat)
    requires i < |es|
  {
    es[i].command.DeleteTrip?
    && exists j :: 0 <= j < |es| && es[j].id != es[i].id && es[j].command.Of(es[i].command.key)
  }

  function Resolve(tripIds: map<TripKey, int>, c: Command): Option<Request> {
    match c
    case CreateTrip(k, date) => Some(CreateReq(k.routeId, date, k.leftHomeAt))
    case UpdateTrip(k, patch) => if k in tripIds then Some(UpdateReq(tripIds[k], patch)) else None
    case UpsertAttempt(k, upsert) => if k in tripIds then Some(UpsertReq(tripIds[k], upsert)) else None
    case UploadGps(owner, points) =>
      if owner.None? then Some(UploadReq(None, points))
      else if owner.value in tripIds then Some(UploadReq(Some(tripIds[owner.value]), points))
      else None
    case DeleteTrip(k) => if k in tripIds then Some(DeleteReq(tripIds[k])) else None
  }

  /** Entry `i` may leave at `now`: it heads its lane, its retry delay is over, and its trip id is known. */
  predicate Ready(st: OutboxState, i: nat, now: Time)
    requires i < |st.entries|
  {
    var e := st.entries[i];
    && Heads(st.entries, i)
    && !e.inFlight
    && (e.notBefore.Some? ==> e.notBefore.value <= now)
    && !HeldBack(st.entries, i)
    && Resolve(st.tripIds, e.command).Some?
  }

  function FirstReady(st: OutboxState, now: Time, from: nat): (i: nat)
    requires from <= |st.entries|
    ensures from <= i <= |st.entries|
    ensures i < |st.entries| ==> Ready(st, i, now)
    ensures forall j :: from <= j < i ==> !Ready(st, j, now)
    decreases |st.entries| - from
  {
    if from == |st.entries| || Ready(st, from, now) then from else FirstReady(st, now, from + 1)
  }

  datatype Dispatch = Dispatch(entryId: nat, request: Request)

  function Next(st: OutboxState, now: Time): (OutboxState, Option<Dispatch>) {
    var i := FirstReady(st, now, 0);
    if st.paused || i == |st.entries| then (st, None)
    else
      var e := st.entries[i];
      (st.(entries := st.entries[i := e.(inFlight := true)]),
       Some(Dispatch(e.id, Resolve(st.tripIds, e.command).value)))
  }

  /** The earliest retry that lies after `now`. */
  function EarliestAfter(es: seq<Entry>, now: Time): (w: Option<Time>)
    ensures w.Some? ==> w.value > now && exists i :: 0 <= i < |es| && es[i].notBefore == w
    ensures forall i :: 0 <= i < |es| && es[i].notBefore.Some? && es[i].notBefore.value > now
              ==> w.Some? && w.value <= es[i].notBefore.value
  {
    if es == [] then None
    else
      var rest := EarliestAfter(es[..|es| - 1], now);
      var t := es[|es| - 1].notBefore;
      if t.None? || t.value <= now then rest
      else if rest.None? || t.value < rest.value then t
      else rest
  }

  function NextWakeAt(st: OutboxState, now: Time): Option<Time> {
    if st.paused then None else EarliestAfter(st.entries, now)
  }

  // ---- results ---------------------------------------------------------------------------------

  datatype Outcome = TripCreated(id: int) | Delivered | Failed(error: ApiError)

  /** The entry with this id, or the number of entries. */
  function IndexOf(es: seq<Entry>, id: nat): (i: nat)
    ensures i <= |es|
    ensures i < |es| ==> es[i].id == id
    ensures forall j :: 0 <= j < i ==> es[j].id != id
  {
    if es == [] || es[0].id == id then 0 else 1 + IndexOf(es[1..], id)
  }

  function RemoveAt(es: seq<Entry>, i: nat): seq<Entry>
    requires i < |es|
  {
    es[..i] + es[i + 1..]
  }

  function Settle(st: OutboxState, i: nat): OutboxState
    requires i < |st.entries|
  {
    var c := st.entries[i].command;
    var st1 := st.(entries := RemoveAt(st.entries, i));
    if c.DeleteTrip? then st1.(tripIds := st.tripIds - {c.key}) else st1
  }

  function Without(es: seq<Entry>, k: TripKey): seq<Entry> {
    if es == [] then []
    else
      var rest := Without(es[..|es| - 1], k);
      if es[|es| - 1].command.Of(k) then rest else rest + [es[|es| - 1]]
  }

  function Orphans(es: seq<Entry>, k: TripKey, now: Time): seq<DeadLetter> {
    if es == [] then []
    else
      var rest := Orphans(es[..|es| - 1], k, now);
      var c := es[|es| - 1].command;
      if c.Of(k) && !c.DeleteTrip? then rest + [DeadLetter(c, TripRejected(k), now)] else rest
  }

  function RejectDependents(st: OutboxState, k: TripKey, now: Time): OutboxState {
    st.(entries := Without(st.entries, k), deadLetters := st.deadLetters + Orphans(st.entries, k, now))
  }

  function Fail(policy: RetryPolicy, st: OutboxState, i: nat, error: ApiError, now: Time): OutboxState
    requires i < |st.entries|
  {
    var e := st.entries[i];
    match policy.Decide(error, e.command)
    case Retry =>
      st.(entries := st.entries[i := e.(inFlight := false, failures := e.failures + 1,
                                        notBefore := Some(now + policy.Delay(e.failures + 1)))])
    case Pause => st.(entries := st.entries[i := e.(inFlight := false)], paused := true)
    case TreatAsDelivered => Settle(st, i)
    case Reject =>
      var st1 := st.(entries := RemoveAt(st.entries, i),
                     deadLetters := st.deadLetters + [DeadLetter(e.command, Rejected(error.Status()), now)]);
      if e.command.CreateTrip? then RejectDependents(st1, e.command.key, now) else st1
  }

  function Complete(policy: RetryPolicy, st: OutboxState, entryId: nat, outcome: Outcome, now: Time): OutboxState {
    var i := IndexOf(st.entries, entryId);
    if i == |st.entries| then st
    else
      match outcome
      case TripCreated(id) =>
        var c := st.entries[i].command;
        var st1 := st.(entries := RemoveAt(st.entries, i));
        if c.CreateTrip? then st1.(tripIds := st.tripIds[c.key := id]) else st1
      case Delivered => Settle(st, i)
      case Failed(error) => Fail(policy, st, i, error, now)
  }

  // ---- operation -------------------------------------------------------------------------------

  function Resume(st: OutboxState): OutboxState {
    st.(paused := false)
  }

  function Expedite(st: OutboxState): OutboxState {
    st.(entries := seq(|st.entries|, i requires 0 <= i < |st.entries| => st.entries[i].(notBefore := None)))
  }

  function ClearDeadLetters(st: OutboxState): OutboxState {
    st.(deadLetters := [])
  }

  /** What a relaunch reads back: nobody knows the result of what was on its way. */
  function Relaunched(st: OutboxState): OutboxState {
    st.(entries := seq(|st.entries|, i requires 0 <= i < |st.entries| => st.entries[i].(inFlight := false)))
  }

  predicate CreateMayHaveLanded(es: seq<Entry>, k: TripKey) {
    exists i :: 0 <= i < |es| && es[i].command.CreateTrip? && es[i].command.key == k
                && (es[i].inFlight || es[i].failures > 0)
  }

  predicate Surplus(e: Entry, k: TripKey, landed: bool) {
    e.command.Of(k) && !e.inFlight && !e.command.DeleteTrip? && (e.command.CreateTrip? ==> !landed)
  }

  function Remaining(es: seq<Entry>, k: TripKey, landed: bool): seq<Entry> {
    if es == [] then []
    else
      var rest := Remaining(es[..|es| - 1], k, landed);
      if Surplus(es[|es| - 1], k, landed) then rest else rest + [es[|es| - 1]]
  }

  predicate Deleting(es: seq<Entry>, k: TripKey) {
    exists i :: 0 <= i < |es| && es[i].command == DeleteTrip(k)
  }

  /** Cancels a trip: drop what has not left, and delete on the server what may have arrived. */
  function Discard(st: OutboxState, k: TripKey, now: Time): OutboxState {
    var landed := CreateMayHaveLanded(st.entries, k);
    var st1 := st.(entries := Remaining(st.entries, k, landed));
    if !Deleting(st.entries, k) && (k in st.tripIds || landed) then Append(st1, DeleteTrip(k), now) else st1
  }
}
