/** The mutable outbox, method by method as in Outbox.swift, proved against the functions of OutboxModel. Every
    change is saved before the method returns. */
module OutboxQueue {
  import opened Basics
  import opened Commands
  import opened TripServer
  import opened OutboxModel

  class Store {
    var saved: Option<OutboxState>

    constructor (found: Option<OutboxState>)
      ensures saved == found
    {
      saved := found;
    }

    method Save(state: OutboxState)
      modifies this
      ensures saved == Some(state)
    {
      saved := Some(state);
    }
  }

  class Outbox {
    const store: Store
    const retry: RetryPolicy
    var entries: seq<Entry>
    var tripIds: map<TripKey, int>
    var deadLetters: seq<DeadLetter>
    var nextId: nat
    var paused: bool

    /** The state the outbox stands for. */
    function State(): OutboxState
      reads this
    {
      OutboxState(entries, tripIds, deadLetters, nextId, paused)
    }

    /** A relaunch would find exactly this state. */
    predicate Saved()
      reads this, store
    {
      store.saved == Some(State())
    }

    /** Reads the stored state back; what was on its way may be sent again. */
    constructor (store: Store, retry: RetryPolicy)
      ensures this.store == store && this.retry == retry
      ensures State() == Relaunched(if store.saved.Some? then store.saved.value else EmptyOutbox)
    {
      this.store, this.retry := store, retry;
      var found := if store.saved.Some? then store.saved.value else EmptyOutbox;
      entries, tripIds, deadLetters, nextId, paused :=
        found.entries, found.tripIds, found.deadLetters, found.nextId, found.paused;
      new;
      for i := 0 to |entries|
        invariant |entries| == |found.entries|
        invariant forall j :: 0 <= j < |entries| ==>
                    entries[j] == if j < i then found.entries[j].(inFlight := false) else found.entries[j]
        invariant OutboxState(entries, tripIds, deadLetters, nextId, paused) == found.(entries := entries)
      {
        entries := entries[i := entries[i].(inFlight := false)];
      }
    }

    method Persist()
      modifies store
      ensures Saved()
    {
      store.Save(State());
    }

    method Append(c: Command, now: Time)
      modifies this
      ensures State() == OutboxModel.Append(old(State()), c, now)
    {
      entries := entries + [Entry(nextId, c, now, 0, None, false)];
      nextId := nextId + 1;
    }

    method LastIndex(lane: Lane) returns (i: int)
      ensures i == LastOf(entries, lane)
    {
      i := |entries| - 1;
      while 0 <= i && entries[i].command.LaneOf() != lane
        invariant -1 <= i < |entries|
        invariant LastOf(entries[..i + 1], lane) == LastOf(entries, lane)
      {
        assert entries[..i + 1][..i] == entries[..i];
        i := i - 1;
      }
    }

    method MergeIntoLaneTail(c: Command) returns (merged: bool)
      modifies this
      ensures merged <==> 0 <= MergeTarget(old(entries), c)
      ensures merged ==> State() == OutboxModel.Enqueue(old(State()), c, 0) || c.UploadGps?
      ensures !merged ==> State() == old(State())
    {
      var i := LastIndex(c.LaneOf());
      if i < 0 || entries[i].inFlight {
        return false;
      }
      match (entries[i].command, c)
      case (UpsertAttempt(key, older), UpsertAttempt(_, newer)) =>
        if !older.SameAttempt(newer) {
          return false;
        }
        entries := entries[i := entries[i].(command := UpsertAttempt(key, older.MergedWith(newer)))];
        return true;
      case (UpdateTrip(key, older), UpdateTrip(_, newer)) =>
        entries := entries[i := entries[i].(command := UpdateTrip(key, older.MergedWith(newer)))];
        return true;
      case _ =>
        return false;
    }

    method Enqueue(c: Command, now: Time)
      modifies this, store
      ensures State() == OutboxModel.Enqueue(old(State()), c, now)
      ensures c.UploadGps? && c.points == [] ==> store.saved == old(store.saved)
      ensures !(c.UploadGps? && c.points == []) ==> Saved()
    {
      if c.UploadGps? {
        if c.points == [] {
          return;
        }
        var start := 0;
        while start < |c.points|
          invariant 0 <= start <= |c.points|
          invariant AppendAll(State(), c.owner, c.points[start..], now) == AppendAll(old(State()), c.owner, c.points, now)
        {
          var end := if start + MAX_GPS_POINTS < |c.points| then start + MAX_GPS_POINTS else |c.points|;
          assert c.points[start..][..end - start] == c.points[start..end];
          assert c.points[start..][end - start..] == c.points[end..];
          Append(UploadGps(c.owner, c.points[start..end]), now);
          start := end;
        }
      } else {
        var merged := MergeIntoLaneTail(c);
        if !merged {
          Append(c, now);
        }
      }
      Persist();
    }

    method Resolve(c: Command) returns (request: Option<Request>)
      ensures request == OutboxModel.Resolve(tripIds, c)
    {
      match c
      case CreateTrip(key, tripDate) => request := Some(CreateReq(key.routeId, tripDate, key.leftHomeAt));
      case UpdateTrip(key, patch) => request := if key in tripIds then Some(UpdateReq(tripIds[key], patch)) else None;
      case UpsertAttempt(key, upsert) =>
        request := if key in tripIds then Some(UpsertReq(tripIds[key], upsert)) else None;
      case UploadGps(owner, points) =>
        if owner.None? {
          request := Some(UploadReq(None, points));
        } else {
          request := if owner.value in tripIds then Some(UploadReq(Some(tripIds[owner.value]), points)) else None;
        }
      case DeleteTrip(key) => request := if key in tripIds then Some(DeleteReq(tripIds[key])) else None;
    }

    /** The scan keeps the lanes it has passed; only the first entry of a lane is a candidate. */
    method Next(now: Time) returns (d: Option<Dispatch>)
      modifies this, store
      ensures (State(), d) == OutboxModel.Next(old(State()), now)
      ensures if d.Some? then Saved() else store.saved == old(store.saved)
    {
      if paused {
        return None;
      }
      var blocked: set<Lane> := {};
      for i := 0 to |entries|
        invariant State() == old(State()) && store.saved == old(store.saved)
        invariant forall lane :: lane in blocked <==> exists j :: 0 <= j < i && entries[j].command.LaneOf() == lane
        invariant forall j :: 0 <= j < i ==> !Ready(State(), j, now)
      {
        var e := entries[i];
        var lane := e.command.LaneOf();
        if lane !in blocked {
          assert Heads(entries, i);
          blocked := blocked + {lane};
          if !e.inFlight && (e.notBefore.None? || e.notBefore.value <= now) && !HeldBack(entries, i) {
            var request := Resolve(e.command);
            if request.Some? {
              FirstIs(State(), now, 0, i);
              entries := entries[i := e.(inFlight := true)];
              Persist();
              return Some(Dispatch(e.id, request.value));
            }
          }
        }
      }
      FirstIs(State(), now, 0, |entries|);
      return None;
    }

    method NextWake(now: Time) returns (w: Option<Time>)
      ensures w == NextWakeAt(State(), now)
    {
      if paused {
        return None;
      }
      w := None;
      for i := 0 to |entries|
        invariant w == EarliestAfter(entries[..i], now)
      {
        assert entries[..i + 1][..i] == entries[..i];
        var t := entries[i].notBefore;
        if t.Some? && t.value > now && (w.None? || t.value < w.value) {
          w := t;
        }
      }
      assert entries[..|entries|] == entries;
    }

    method Delivered(i: nat)
      requires i < |entries|
      modifies this
      ensures State() == Settle(old(State()), i)
    {
      var c := entries[i].command;
      entries := RemoveAt(entries, i);
      if c.DeleteTrip? {
        tripIds := tripIds - {c.key};
      }
    }

    method RejectDependents(key: TripKey, now: Time)
      modifies this
      ensures State() == OutboxModel.RejectDependents(old(State()), key, now)
    {
      var kept: seq<Entry>, letters: seq<DeadLetter> := [], [];
      for i := 0 to |entries|
        invariant State() == old(State())
        invariant kept == Without(entries[..i], key) && letters == Orphans(entries[..i], key, now)
      {
        assert entries[..i + 1][..i] == entries[..i];
        var c := entries[i].command;
        if !c.Of(key) {
          kept := kept + [entries[i]];
        } else if !c.DeleteTrip? {
          letters := letters + [DeadLetter(c, TripRejected(key), now)];
        }
      }
      assert entries[..|entries|] == entries;
      entries, deadLetters := kept, deadLetters + letters;
    }

    method Failure(i: nat, error: ApiError, now: Time)
      requires i < |entries|
      modifies this
      ensures State() == Fail(retry, old(State()), i, error, now)
    {
      var e := entries[i];
      match retry.Decide(error, e.command)
      case Retry =>
        var failures := e.failures + 1;
        entries := entries[i := e.(inFlight := false, failures := failures,
                                   notBefore := Some(now + retry.Delay(failures)))];
      case Pause =>
        entries := entries[i := e.(inFlight := false)];
        paused := true;
      case TreatAsDelivered => Delivered(i);
      case Reject =>
        entries := RemoveAt(entries, i);
        deadLetters := deadLetters + [DeadLetter(e.command, Rejected(error.Status()), now)];
        if e.command.CreateTrip? {
          RejectDependents(e.command.key, now);
        }
    }

    method Complete(entryId: nat, outcome: Outcome, now: Time)
      modifies this, store
      ensures State() == OutboxModel.Complete(retry, old(State()), entryId, outcome, now)
      ensures (exists e :: e in old(entries) && e.id == entryId) ==> Saved()
    {
      var i := IndexOf(entries, entryId);
      if i == |entries| {
        return;
      }
      match outcome {
        case TripCreated(id) =>
          var c := entries[i].command;
          if c.CreateTrip? {
            tripIds := tripIds[c.key := id];
          }
          entries := RemoveAt(entries, i);
        case Delivered => Delivered(i);
        case Failed(error) => Failure(i, error, now);
      }
      Persist();
    }

    method Resume()
      modifies this, store
      ensures State() == OutboxModel.Resume(old(State())) && Saved()
    {
      paused := false;
      Persist();
    }

    method ExpediteRetries()
      modifies this, store
      ensures State() == Expedite(old(State())) && Saved()
    {
      for i := 0 to |entries|
        invariant State() == old(State()).(entries := entries) && |entries| == |old(entries)|
        invariant forall j :: 0 <= j < |entries| ==>
                    entries[j] == if j < i then old(entries)[j].(notBefore := None) else old(entries)[j]
      {
        entries := entries[i := entries[i].(notBefore := None)];
      }
      Persist();
    }

    method ClearDeadLetters()
      modifies this, store
      ensures State() == OutboxModel.ClearDeadLetters(old(State())) && Saved()
    {
      deadLetters := [];
      Persist();
    }

    method Discard(key: TripKey, now: Time)
      modifies this, store
      ensures State() == OutboxModel.Discard(old(State()), key, now) && Saved()
    {
      var landed := CreateMayHaveLanded(entries, key);
      var deleting := Deleting(entries, key);
      var kept: seq<Entry> := [];
      for i := 0 to |entries|
        invariant State() == old(State())
        invariant kept == Remaining(entries[..i], key, landed)
      {
        assert entries[..i + 1][..i] == entries[..i];
        if !Surplus(entries[i], key, landed) {
          kept := kept + [entries[i]];
        }
      }
      assert entries[..|entries|] == entries;
      entries := kept;
      if !deleting && (key in tripIds || landed) {
        Append(DeleteTrip(key), now);
      }
      Persist();
    }
  }

  /** The app dies after any saved change and starts again on the same store. */
  method Relaunch(outbox: Outbox) returns (again: Outbox)
    requires outbox.Saved()
    ensures fresh(again) && again.store == outbox.store && again.State() == Relaunched(outbox.State())
  {
    again := new Outbox(outbox.store, outbox.retry);
  }

  lemma {:induction false} FirstIs(st: OutboxState, now: Time, from: nat, i: nat)
    requires from <= i <= |st.entries|
    requires forall j :: from <= j < i ==> !Ready(st, j, now)
    requires i < |st.entries| ==> Ready(st, i, now)
    ensures FirstReady(st, now, from) == i
    decreases i - from
  {
    if from < i {
      FirstIs(st, now, from + 1, i);
    }
  }
}
