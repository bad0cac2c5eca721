/** Cancelling a trip keeps the invariant: whatever has not left is dropped, and what may have arrived is
    deleted behind whatever is still on its way. */
module LinkCancel {
  import opened Basics
  import opened Commands
  import opened TripServer
  import opened OutboxModel
  import opened CommandFold
  import opened TripViews
  import opened Link
  import opened LinkMirror
  import opened LinkSubmit
  import opened LinkGiveUp
  import opened LinkNetwork
  import opened LinkServe

  lemma {:induction false} RemainingMembers(es: seq<Entry>, k: TripKey, landed: bool)
    ensures forall e :: e in Remaining(es, k, landed) <==> e in es && !Surplus(e, k, landed)
  {
    if es != [] {
      RemainingMembers(es[..|es| - 1], k, landed);
      assert es == es[..|es| - 1] + [es[|es| - 1]];
    }
  }

  lemma {:induction false} RemainingSorted(es: seq<Entry>, k: TripKey, landed: bool)
    requires Sorted(es)
    ensures Sorted(Remaining(es, k, landed))
  {
    if es != [] {
      RemainingSorted(es[..|es| - 1], k, landed);
      RemainingMembers(es[..|es| - 1], k, landed);
      var rest := Remaining(es[..|es| - 1], k, landed);
      forall e | e in rest ensures e.id < es[|es| - 1].id {
        var j :| 0 <= j < |es| - 1 && es[..|es| - 1][j] == e;
      }
      forall i | 0 <= i < |rest| ensures rest[i].id < es[|es| - 1].id {
        assert rest[i] in rest;
      }
    }
  }

  lemma RemainingLast(front: seq<Entry>, e: Entry, k: TripKey, landed: bool)
    ensures Cmds(Remaining(front + [e], k, landed))
            == Cmds(Remaining(front, k, landed)) + if Surplus(e, k, landed) then [] else [e.command]
  {
    assert (front + [e])[..|front|] == front;
  }

  /** Dropping commands of one trip means nothing for another. */
  lemma {:induction false} RemainingMeans(es: seq<Entry>, k: TripKey, landed: bool, x: TripKey,
                                          t: Option<TripRec>, rows: map<Time, GpsPoint>, shared: set<Time>)
    requires x != k
    ensures SameFor(Cmds(Remaining(es, k, landed)), Cmds(es), x, t, rows, shared)
  {
    hide SameFor, Fold, Chain;
    SameForSelf([], x, t, rows, shared);
    if es != [] {
      var front, e := es[..|es| - 1], es[|es| - 1];
      var a, b := Cmds(Remaining(front, k, landed)), Cmds(front);
      RemainingMeans(front, k, landed, x, t, rows, shared);
      SameForStep(a, b, e.command, x, t, rows, shared);
      RemainingLast(front, e, k, landed);
      CmdsLast(front, e);
      assert front + [e] == es;
      var after := a + if Surplus(e, k, landed) then [] else [e.command];
      assert SameFor(after, b + [e.command], x, t, rows, shared) by {
        assert a + [] == a;
      }
    }
  }

  // ---- the trip that is cancelled ----------------------------------------------------------------

  ghost predicate MayCancel(l: Link, k: TripKey) {
    Ideal(l.log, k).Some?
  }

  lemma CreateFits(l: Link, e: Entry, k: TripKey)
    requires e in l.outbox.entries && IsCreateOf(e.command, k) && CreateOf(l, e, k)
    requires CommandOk(l.claims, l.samples, e.command)
    ensures Fits(TripOf(l.server, k), e.command, k) && IsHead(l.outbox.entries, e)
  {
  }

  /** What stays of the trip is on its way, or is the create that may have arrived. */
  lemma RemainingOf(l: Link, k: TripKey, e: Entry)
    requires Inv(l) && MayCancel(l, k) && k !in l.abandoned && k !in l.late
    requires e in l.outbox.entries && !Surplus(e, k, CreateMayHaveLanded(l.outbox.entries, k)) && e.command.Of(k)
    ensures e.inFlight || (e.command.CreateTrip? && CreateMayHaveLanded(l.outbox.entries, k))
    ensures !e.command.DeleteTrip?
    ensures !e.command.UploadGps? ==>
              && IsHead(l.outbox.entries, e)
              && Fits(TripOf(l.server, k), e.command, k)
    ensures k !in l.outbox.tripIds ==> e.command.CreateTrip? && CreateMayHaveLanded(l.outbox.entries, k)
  {
    hide Inv, Converges, ServerInv, WriteTrip, Fits;
    OpenHasNoDelete(l, k);
    EntryOf(l, e);
    KeyOf(l, k);
    var i :| 0 <= i < |l.outbox.entries| && l.outbox.entries[i] == e;
    if e.command.CreateTrip? {
      CreateFits(l, e, k);
    } else if !e.command.UploadGps? {
      HeadFits(l, i, k);
    }
  }

  lemma RemainingFits(l: Link, k: TripKey, r: seq<Entry>, i: nat)
    requires Inv(l) && MayCancel(l, k) && k !in l.abandoned && k !in l.late
    requires Sorted(r) && i < |r|
    requires forall e :: e in r ==> e in l.outbox.entries && !Surplus(e, k, CreateMayHaveLanded(l.outbox.entries, k))
    ensures Fits(Fold(TripWriter(k), TripOf(l.server, k), Cmds(r)[..i]), r[i].command, k)
  {
    hide Inv, Ideal, TripOf, Surplus, Fits, CreateMayHaveLanded;
    assert r[i] in r;
    if r[i].command.Of(k) {
      if r[i].command.UploadGps? {
        EntryOf(l, r[i]);
        UploadFits(l, r[i].command, k);
      } else {
        RemainingOf(l, k, r[i]);
        forall j | 0 <= j < i ensures Inert(TripWriter(k), r[j].command) {
          assert r[j] in r && r[j].id < r[i].id;
          if r[j].command.Of(k) {
            RemainingOf(l, k, r[j]);
          }
          OtherwiseInert(r[j].command, k);
        }
        FoldInert(TripWriter(k), TripOf(l.server, k), Cmds(r)[..i]);
      }
    } else {
      OtherFits(r[i].command, k);
    }
  }

  lemma UploadFits(l: Link, c: Command, k: TripKey)
    requires CommandOk(l.claims, l.samples, c) && c.UploadGps?
    ensures forall t :: Fits(t, c, k)
  {
  }

  lemma OtherFits(c: Command, k: TripKey)
    requires !c.Of(k)
    ensures forall t :: Fits(t, c, k)
  {
  }

  /** What a cancellation leaves of a trip can be sent within the server's rules. */
  lemma CancelledMeans(l: Link, k: TripKey)
    requires Inv(l) && MayCancel(l, k) && k !in l.abandoned && k !in l.late
    ensures var r := Remaining(l.outbox.entries, k, CreateMayHaveLanded(l.outbox.entries, k));
            Chain(TripWriter(k), Fitting(k), TripOf(l.server, k), Cmds(r))
  {
    hide Inv, MayCancel, TripOf, Surplus, Fits, CreateMayHaveLanded, Fold;
    var landed := CreateMayHaveLanded(l.outbox.entries, k);
    var r := Remaining(l.outbox.entries, k, landed);
    EntriesSorted(l);
    RemainingMembers(l.outbox.entries, k, landed);
    RemainingSorted(l.outbox.entries, k, landed);
    forall i | 0 <= i < |r| ensures Fitting(k)(Fold(TripWriter(k), TripOf(l.server, k), Cmds(r)[..i]), Cmds(r)[i]) {
      RemainingFits(l, k, r, i);
    }
  }

  /** A cancelled trip that left no trace in the outbox leaves no entry either. */
  lemma NothingRemains(l: Link, k: TripKey)
    requires Inv(l) && MayCancel(l, k) && k !in l.abandoned && k !in l.late
    requires k !in l.outbox.tripIds && !CreateMayHaveLanded(l.outbox.entries, k)
    ensures forall e :: e in Remaining(l.outbox.entries, k, false) ==> !e.command.Of(k)
  {
    RemainingMembers(l.outbox.entries, k, false);
    forall e | e in Remaining(l.outbox.entries, k, false) ensures !e.command.Of(k) {
      if e.command.Of(k) {
        RemainingOf(l, k, e);
      }
    }
  }

  lemma InertFolds(es: seq<Entry>, k: TripKey, t: Option<TripRec>, rows: map<Time, GpsPoint>, shared: set<Time>)
    requires forall e :: e in es ==> !e.command.Of(k)
    ensures Fold(TripWriter(k), t, Cmds(es)) == t && Fold(RowWriter(k, shared), rows, Cmds(es)) == rows
  {
    forall c | c in Cmds(es) ensures Inert(TripWriter(k), c) && Inert(RowWriter(k, shared), c) {
      var i :| 0 <= i < |es| && c == es[i].command;
      assert es[i] in es;
      OtherwiseInert(c, k);
      OtherwiseNoRows(c, k, shared);
    }
    FoldInert(TripWriter(k), t, Cmds(es));
    FoldInert(RowWriter(k, shared), rows, Cmds(es));
  }

  /** The commands left after a cancellation. */
  lemma CancelledCmds(l: Link, k: TripKey, now: Time)
    requires !Deleting(l.outbox.entries, k)
    ensures var landed := CreateMayHaveLanded(l.outbox.entries, k);
            Cmds(Cancel(l, k, now).outbox.entries)
            == Cmds(Remaining(l.outbox.entries, k, landed))
               + if k in l.outbox.tripIds || landed then [DeleteTrip(k)] else []
  {
    hide Remaining, CreateMayHaveLanded;
    CmdsLast(Remaining(l.outbox.entries, k, CreateMayHaveLanded(l.outbox.entries, k)), DeleteEntry(l.outbox, k, now));
  }

  lemma CancelConverges(l: Link, k: TripKey, now: Time, x: TripKey)
    requires Inv(l) && MayCancel(l, k) && x !in l.abandoned && x !in l.late
    ensures Converges(Cancel(l, k, now), x)
  {
    OpenHasNoDelete(l, k);
    IdealLast(l, DeleteTrip(k), x);
    CancelledCmds(l, k, now);
    if x == k {
      CancelledConverges(l, k, now);
    } else {
      KeyOf(l, x);
      OtherConverges(l, k, now, x);
    }
  }

  lemma OtherConverges(l: Link, k: TripKey, now: Time, x: TripKey)
    requires x != k && Converges(l, x) && !Deleting(l.outbox.entries, k)
    requires Cmds(Cancel(l, k, now).outbox.entries)
             == Cmds(Remaining(l.outbox.entries, k, CreateMayHaveLanded(l.outbox.entries, k)))
                + if k in l.outbox.tripIds || CreateMayHaveLanded(l.outbox.entries, k) then [DeleteTrip(k)] else []
    requires Ideal(l.log + [DeleteTrip(k)], x) == Ideal(l.log, x)
    requires IdealRows(l.log + [DeleteTrip(k)], x) == IdealRows(l.log, x)
    ensures Converges(Cancel(l, k, now), x)
  {
    hide Fold, Chain, Remaining, CreateMayHaveLanded, Discard, Ideal, IdealRows;
    var landed := CreateMayHaveLanded(l.outbox.entries, k);
    var r := Cmds(Remaining(l.outbox.entries, k, landed));
    var shared := Shared(l.samples);
    RemainingMeans(l.outbox.entries, k, landed, x, TripOf(l.server, x), OwnRows(l.server, x, shared), shared);
    StepMeans(r, DeleteTrip(k), x, TripOf(l.server, x), OwnRows(l.server, x, shared), shared);
    assert r + [] == r;
  }

  lemma CancelledConverges(l: Link, k: TripKey, now: Time)
    requires Inv(l) && MayCancel(l, k) && k !in l.abandoned && k !in l.late && !Deleting(l.outbox.entries, k)
    requires Cmds(Cancel(l, k, now).outbox.entries)
             == Cmds(Remaining(l.outbox.entries, k, CreateMayHaveLanded(l.outbox.entries, k)))
                + if k in l.outbox.tripIds || CreateMayHaveLanded(l.outbox.entries, k) then [DeleteTrip(k)] else []
    requires Ideal(l.log + [DeleteTrip(k)], k).None? && IdealRows(l.log + [DeleteTrip(k)], k) == map[]
    ensures Converges(Cancel(l, k, now), k)
  {
    hide Inv, Fold, Chain, Remaining, CreateMayHaveLanded, Discard, Ideal, IdealRows, TripOf, OwnRows, Shared;
    var landed := CreateMayHaveLanded(l.outbox.entries, k);
    var es := Remaining(l.outbox.entries, k, landed);
    CancelledMeans(l, k);
    var shared := Shared(l.samples);
    StepMeans(Cmds(es), DeleteTrip(k), k, TripOf(l.server, k), OwnRows(l.server, k, shared), shared);
    assert Cmds(es) + [] == Cmds(es);
    if k !in l.outbox.tripIds && !landed {
      NothingRemains(l, k);
      InertFolds(es, k, TripOf(l.server, k), OwnRows(l.server, k, shared), shared);
      NoTrip(l.server, k);
      if TripOf(l.server, k).None? {
        OwnRowsOfNone(l.server, k, shared);
      }
    }
  }

  lemma OwnRowsOfNone(s: Server, k: TripKey, shared: set<Time>)
    requires RowsOf(s, k) == map[]
    ensures OwnRows(s, k, shared) == map[]
  {
  }

  function DeleteEntry(st: OutboxState, k: TripKey, now: Time): Entry {
    Entry(st.nextId, DeleteTrip(k), now, 0, None, false)
  }

  /** The queue after a cancellation: what remains, and a delete unless the server cannot know the trip. */
  lemma CancelledQueue(st: OutboxState, k: TripKey, now: Time)
    requires Sorted(st.entries) && forall e :: e in st.entries ==> e.id < st.nextId
    requires !Deleting(st.entries, k)
    ensures var es' := Discard(st, k, now).entries;
            var landed := CreateMayHaveLanded(st.entries, k);
            && Sorted(es')
            && (forall e :: e in es' && e.id < st.nextId <==> e in st.entries && !Surplus(e, k, landed))
            && (forall e :: e in es' && e.id >= st.nextId <==>
                              e == DeleteEntry(st, k, now) && (k in st.tripIds || landed))
            && (forall e :: e in es' ==> e.id < Discard(st, k, now).nextId)
            && Discard(st, k, now).tripIds == st.tripIds
  {
    var landed := CreateMayHaveLanded(st.entries, k);
    var r := Remaining(st.entries, k, landed);
    RemainingMembers(st.entries, k, landed);
    RemainingSorted(st.entries, k, landed);
    forall i | 0 <= i < |r| ensures r[i].id < st.nextId {
      assert r[i] in r && r[i] in st.entries;
    }
  }

  lemma CancelFlight(l: Link, k: TripKey, now: Time)
    requires Inv(l) && MayCancel(l, k)
    ensures FlightInv(Cancel(l, k, now))
  {
    var l' := Cancel(l, k, now);
    var es, es' := l.outbox.entries, l'.outbox.entries;
    OpenHasNoDelete(l, k);
    CancelledQueue(l.outbox, k, now);
    forall e | e in es' ensures FlightOf(l', e) {
      if e.id < l.outbox.nextId {
        assert e in es && FlightOf(l, e);
      } else {
        assert e.id !in l.air;
      }
    }
    forall id | id in l'.air ensures exists e :: e in es' && e.id == id {
      var e :| e in es && e.id == id;
      assert FlightOf(l, e);
      assert e in es';
    }
  }

  lemma CancelIdsOther(l: Link, k: TripKey, now: Time, x: TripKey)
    requires Inv(l) && MayCancel(l, k) && x !in l.abandoned && x !in l.late && x != k
    ensures IdsAgree(Cancel(l, k, now), x)
  {
    hide Inv, Remaining, Discard, Ideal, IdsAgree, Converges, TripInv, Sorted, CreateMayHaveLanded;
    OpenHasNoDelete(l, k);
    QueueShape(l, k, now);
    KeyOf(l, x);
    SameOfAgrees(l, Cancel(l, k, now), x);
  }

  lemma CancelIdsKnown(l: Link, k: TripKey, now: Time)
    requires Inv(l) && MayCancel(l, k) && k !in l.abandoned && k !in l.late && k in l.outbox.tripIds
    ensures IdsAgree(Cancel(l, k, now), k)
  {
    hide ServerInv, Converges, TripInv, FlightInv, Remaining, Discard;
    OpenHasNoDelete(l, k);
    CancelledQueue(l.outbox, k, now);
    KeyOf(l, k);
  }

  lemma CancelIdsLanded(l: Link, k: TripKey, now: Time)
    requires Inv(l) && MayCancel(l, k) && k !in l.abandoned && k !in l.late && k !in l.outbox.tripIds
    requires CreateMayHaveLanded(l.outbox.entries, k)
    ensures IdsAgree(Cancel(l, k, now), k)
  {
    hide ServerInv, Converges, IdsAgree, TripInv, FlightInv, Remaining, Discard;
    var es, es' := l.outbox.entries, Cancel(l, k, now).outbox.entries;
    OpenHasNoDelete(l, k);
    CancelledQueue(l.outbox, k, now);
    var i :| 0 <= i < |es| && IsCreateOf(es[i].command, k) && (es[i].inFlight || es[i].failures > 0);
    EntryOf(l, es[i]);
    assert es[i] in es && !Surplus(es[i], k, true);
    assert es[i] in es';
    forall e | e in es' && e.command.Of(k) ensures CreateAhead(es', k, e.id) {
      if e.id < l.outbox.nextId {
        RemainingOf(l, k, e);
        assert IsCreateOf(e.command, k);
      }
    }
    AgreesAhead(Cancel(l, k, now), k);
  }

  lemma AgreesAhead(l: Link, k: TripKey)
    requires k !in l.outbox.tripIds && exists e :: e in l.outbox.entries && IsCreateOf(e.command, k)
    requires forall e :: e in l.outbox.entries && e.command.Of(k) ==> CreateAhead(l.outbox.entries, k, e.id)
    ensures IdsAgree(l, k)
  {
  }

  lemma CancelIdsNothing(l: Link, k: TripKey, now: Time)
    requires Inv(l) && MayCancel(l, k) && k !in l.abandoned && k !in l.late && k !in l.outbox.tripIds
    requires !CreateMayHaveLanded(l.outbox.entries, k)
    ensures IdsAgree(Cancel(l, k, now), k)
  {
    hide ServerInv, Converges, TripInv, FlightInv, Remaining, Discard;
    OpenHasNoDelete(l, k);
    CancelledQueue(l.outbox, k, now);
    NothingRemains(l, k);
    RemainingMembers(l.outbox.entries, k, false);
  }

  lemma CancelIdsSame(l: Link, k: TripKey, now: Time)
    requires Inv(l) && MayCancel(l, k) && k !in l.abandoned && k !in l.late
    ensures IdsAgree(Cancel(l, k, now), k)
  {
    hide *;
    if k in l.outbox.tripIds {
      CancelIdsKnown(l, k, now);
    } else if CreateMayHaveLanded(l.outbox.entries, k) {
      CancelIdsLanded(l, k, now);
    } else {
      CancelIdsNothing(l, k, now);
    }
  }

  lemma LeakIsInterrupted(l: Link, k: TripKey)
    requires Inv(l) && MayCancel(l, k) && k !in l.abandoned && k !in l.late && Leaky(l, k)
    ensures k in l.interrupted
  {
    hide Inv, TripOf, RowsOf, Ideal, Answered, Foremost, CreateLeads;
    OpenHasCreate(l, k);
    var e :| e in l.outbox.entries && IsCreateOf(e.command, k);
    CreateIsOf(l, e, k);
    EntryOf(l, e);
    var i :| 0 <= i < |l.outbox.entries| && l.outbox.entries[i] == e;
  }

  lemma CancelOther(l: Link, k: TripKey, now: Time, x: TripKey)
    requires Inv(l) && MayCancel(l, k) && x !in l.abandoned && x !in l.late && x != k
    ensures TripInv(Cancel(l, k, now), x)
  {
    var l' := Cancel(l, k, now);
    var es, es' := l.outbox.entries, l'.outbox.entries;
    OpenHasNoDelete(l, k);
    CancelledQueue(l.outbox, k, now);
    IdealLast(l, DeleteTrip(k), x);
    KeyOf(l, x);
    forall e | e in es' && IsCreateOf(e.command, x) ensures CreateOf(l', e, x) {
      assert e in es && CreateOf(l, e, x);
    }
    forall e | e in es' && e.command == DeleteTrip(x) ensures DeleteOf(l', e, x) {
      assert e in es && DeleteOf(l, e, x);
    }
  }

  lemma CancelSame(l: Link, k: TripKey, now: Time)
    requires Inv(l) && MayCancel(l, k) && k !in l.abandoned && k !in l.late
    ensures TripInv(Cancel(l, k, now), k)
  {
    hide ServerInv, Converges, IdsAgree, Remaining, Discard;
    var l' := Cancel(l, k, now);
    var es, es' := l.outbox.entries, l'.outbox.entries;
    OpenHasNoDelete(l, k);
    CancelledQueue(l.outbox, k, now);
    IdealLast(l, DeleteTrip(k), k);
    KeyOf(l, k);
    forall e | e in es' && IsCreateOf(e.command, k) ensures CreateOf(l', e, k) {
      assert e in es && CreateOf(l, e, k);
    }
    if Leaky(l, k) {
      LeakIsInterrupted(l, k);
      NothingRemains(l, k);
      RemainingMembers(es, k, false);
    }
  }

  /** Cancelling an abandoned trip drops what waits for it, and cannot delete it. */
  lemma CancelStranded(l: Link, k: TripKey, now: Time, x: TripKey)
    requires Inv(l) && MayCancel(l, k) && x in l.abandoned && x !in l.late
    ensures Stranded(Cancel(l, k, now), x)
    ensures x == k ==> forall e :: e in Cancel(l, k, now).outbox.entries ==> !e.command.Of(k)
  {
    hide ServerInv, Remaining, Discard, Converges, IdsAgree, TripInv, TripOf, RowsOf;
    var es, es' := l.outbox.entries, Cancel(l, k, now).outbox.entries;
    StrandedOf(l, x);
    OpenHasNoDelete(l, k);
    EntriesSorted(l);
    CancelledQueue(l.outbox, k, now);
    if x == k {
      assert !CreateMayHaveLanded(es, k) by {
        forall i | 0 <= i < |es| ensures !IsCreateOf(es[i].command, k) {
          assert es[i] in es;
        }
      }
      forall e | e in es' ensures !e.command.Of(k) {
        if e.command.Of(k) && e.inFlight {
          TriedIsKept(l, e, k);
        }
      }
    }
  }

  /** Cancelling keeps what the outbox sees of a trip of which a request landed late. */
  lemma CancelLooseOther(l: Link, k: TripKey, now: Time, x: TripKey)
    requires Inv(l) && MayCancel(l, k) && x in l.late && x != k
    ensures Loose(Cancel(l, k, now), x)
  {
    hide Inv, Remaining, Discard, Ideal, Loose, Sorted, CreateMayHaveLanded;
    OpenHasNoDelete(l, k);
    QueueShape(l, k, now);
    IdealLast(l, DeleteTrip(k), x);
    LooseOf(l, x);
    SameOfIsLoose(l, Cancel(l, k, now), x);
  }

  /** What stays of the trip keeps its place: the create first, the delete last. */
  lemma LeftKeepsPlace(l: Link, k: TripKey, now: Time, e: Entry)
    requires Inv(l) && MayCancel(l, k) && e in Cancel(l, k, now).outbox.entries && e.command.Of(k)
    ensures var es' := Cancel(l, k, now).outbox.entries;
            && (k in l.outbox.tripIds || k in l.abandoned ==> !e.command.CreateTrip?)
            && (IsCreateOf(e.command, k) ==> CreateLeads(es', e, k))
            && (e.command == DeleteTrip(k) ==> DeleteLasts(es', e, k) && k !in l.abandoned)
  {
    hide Inv, Remaining, Discard, Ideal, Sorted, CreateMayHaveLanded, Leaky;
    OpenHasNoDelete(l, k);
    QueueShape(l, k, now);
    if e.id < l.outbox.nextId {
      if e.command.CreateTrip? {
        CreateIsFirst(l, e, k);
      }
    } else if k in l.abandoned {
      AbandonedHasNoId(l, k);
      var c := LandedCreate(l, k);
    }
  }

  lemma CancelLoose(l: Link, k: TripKey, now: Time)
    requires Inv(l) && MayCancel(l, k) && k in l.late
    ensures Loose(Cancel(l, k, now), k)
  {
    hide Inv, Ideal, OwnId, CreateAhead, CreateLeads, DeleteLasts, HasCreate, Leaky, Remaining;
    LooseOf(l, k);
    IdealLast(l, DeleteTrip(k), k);
    forall e | e in Cancel(l, k, now).outbox.entries && e.command.Of(k)
      ensures k in l.outbox.tripIds || k in l.abandoned ==> !e.command.CreateTrip?
      ensures IsCreateOf(e.command, k) ==> CreateLeads(Cancel(l, k, now).outbox.entries, e, k)
      ensures e.command == DeleteTrip(k) ==> DeleteLasts(Cancel(l, k, now).outbox.entries, e, k) && k !in l.abandoned
      ensures k !in l.outbox.tripIds ==> CreateAhead(Cancel(l, k, now).outbox.entries, k, e.id)
    {
      LeftKeepsPlace(l, k, now, e);
      if k !in l.outbox.tripIds {
        LeftAhead(l, k, now, e);
      }
    }
  }

  lemma QueueShape(l: Link, k: TripKey, now: Time)
    requires Inv(l) && !Deleting(l.outbox.entries, k)
    ensures var es' := Discard(l.outbox, k, now).entries;
            var landed := CreateMayHaveLanded(l.outbox.entries, k);
            && Sorted(es')
            && (forall e :: e in l.outbox.entries ==> e.id < l.outbox.nextId)
            && (forall e :: e in es' && e.id < l.outbox.nextId <==> e in l.outbox.entries && !Surplus(e, k, landed))
            && (forall e :: e in es' && e.id >= l.outbox.nextId <==>
                              e == DeleteEntry(l.outbox, k, now) && (k in l.outbox.tripIds || landed))
            && (forall e :: e in es' ==> e.id < Discard(l.outbox, k, now).nextId)
            && Discard(l.outbox, k, now).tripIds == l.outbox.tripIds
  {
    hide KeyInv, FlightInv, OrphansInv, ServerInv, CommandOk;
    CancelledQueue(l.outbox, k, now);
  }

  lemma LandedCreate(l: Link, k: TripKey) returns (c: Entry)
    requires CreateMayHaveLanded(l.outbox.entries, k)
    ensures c in l.outbox.entries && IsCreateOf(c.command, k) && !Surplus(c, k, true)
  {
    var i :| 0 <= i < |l.outbox.entries| && IsCreateOf(l.outbox.entries[i].command, k)
             && (l.outbox.entries[i].inFlight || l.outbox.entries[i].failures > 0);
    c := l.outbox.entries[i];
  }

  /** What stays of a trip whose id is unknown waits behind its create. */
  lemma LeftAhead(l: Link, k: TripKey, now: Time, e: Entry)
    requires Inv(l) && MayCancel(l, k) && k !in l.outbox.tripIds
    requires e in Cancel(l, k, now).outbox.entries && e.command.Of(k)
    ensures CreateAhead(Cancel(l, k, now).outbox.entries, k, e.id)
  {
    hide Inv, Remaining, Discard, Ideal, CreateMayHaveLanded, Sorted;
    OpenHasNoDelete(l, k);
    QueueShape(l, k, now);
    if e.id < l.outbox.nextId {
      EntryOf(l, e);
    } else {
      var c := LandedCreate(l, k);
    }
  }

  lemma CancelOrphans(l: Link, k: TripKey, now: Time)
    requires Inv(l) && MayCancel(l, k)
    ensures OrphansInv(Cancel(l, k, now))
  {
    hide ServerInv, FlightInv, KeyInv, RequestOf, CommandOk, Discard, Remaining, QueueInv, Ideal;
    OpenHasNoDelete(l, k);
    QueueShape(l, k, now);
    NextGrows(l.outbox, k, now);
    forall o | o in l.orphans ensures OrphanOk(Cancel(l, k, now), o) {
      assert OrphanOk(l, o);
    }
  }

  lemma NextGrows(st: OutboxState, k: TripKey, now: Time)
    ensures st.nextId <= Discard(st, k, now).nextId && Discard(st, k, now).deadLetters == st.deadLetters
  {
  }

  lemma CancelQueue(l: Link, k: TripKey, now: Time)
    requires Inv(l) && MayCancel(l, k)
    ensures QueueInv(Cancel(l, k, now))
  {
    hide Inv, CommandOk, Discard, Remaining, Ideal, Sorted;
    OpenHasNoDelete(l, k);
    QueueShape(l, k, now);
    NextGrows(l.outbox, k, now);
    KnownWhenRecorded(l, k);
    EntriesSorted(l);
    DeleteIsOk(l, k);
    forall e | e in Cancel(l, k, now).outbox.entries ensures CommandOk(l.claims, l.samples, e.command) {
      if e.id < l.outbox.nextId {
        EntryOf(l, e);
      }
    }
  }

  lemma DeleteIsOk(l: Link, k: TripKey)
    requires Known(l.claims, k)
    ensures CommandOk(l.claims, l.samples, DeleteTrip(k))
  {
  }

  lemma CancelKeepsInv(l: Link, k: TripKey, now: Time)
    requires Inv(l) && MayCancel(l, k)
    ensures Inv(Cancel(l, k, now))
  {
    CancelQueue(l, k, now);
    CancelFlight(l, k, now);
    CancelOrphans(l, k, now);
    hide Converges, IdsAgree, TripInv, Loose, Stranded, FlightInv, QueueInv, OrphansInv, Discard, Ideal;
    forall x ensures KeyInv(Cancel(l, k, now), x) {
      if x in l.late {
        if x == k {
          CancelLoose(l, k, now);
        } else {
          CancelLooseOther(l, k, now, x);
        }
      } else if x in l.abandoned {
        CancelStranded(l, k, now, x);
      } else {
        CancelConverges(l, k, now, x);
        if x == k {
          CancelIdsSame(l, k, now);
          CancelSame(l, k, now);
        } else {
          CancelIdsOther(l, k, now, x);
          CancelOther(l, k, now, x);
        }
      }
    }
  }
}
