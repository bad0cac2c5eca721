/** Giving up a create whose answer cannot be read keeps the invariant: its trip is abandoned with everything queued for
    it, and every other trip keeps what it has. */
module LinkGiveUp {
  import opened Basics
  import opened Commands
  import opened TripServer
  import opened OutboxModel
  import opened CommandFold
  import opened TripViews
  import opened Link
  import opened LinkSubmit

  // ---- facts about queues ------------------------------------------------------------------------

  lemma SortedIds(es: seq<Entry>, i: nat, e: Entry)
    requires Sorted(es) && i < |es| && e in es && e.id == es[i].id
    ensures e == es[i]
  {
    var j :| 0 <= j < |es| && es[j] == e;
  }

  lemma StaysAhead(es: seq<Entry>, es': seq<Entry>, e: Entry)
    requires forall o :: o in es' ==> o in es
    ensures IsHead(es, e) ==> IsHead(es', e)
    ensures forall k :: Alone(es, e, k) ==> Alone(es', e, k)
    ensures Foremost(es, e) ==> Foremost(es', e)
  {
  }

  lemma CmdsLast(es: seq<Entry>, e: Entry)
    ensures Cmds(es + [e]) == Cmds(es) + [e.command]
  {
  }

  /** While a create is queued, nothing else of its trip can be sent. */
  lemma CreateBlocks(l: Link, e: Entry, o: Entry, k: TripKey)
    requires Inv(l) && e in l.outbox.entries && e.command.Of(k) && Resolve(l.outbox.tripIds, e.command).Some?
    requires o in l.outbox.entries && IsCreateOf(o.command, k)
    ensures o == e
  {
    hide Inv;
    CreateIsFirst(l, o, k);
    EntriesSorted(l);
    if o.id == e.id {
      var i :| 0 <= i < |l.outbox.entries| && l.outbox.entries[i] == e;
      SortedIds(l.outbox.entries, i, o);
    }
  }

  /** Two queues that mean the same for trip `x`, the first within the server's rules if the second is. */
  ghost predicate SameFor(a: seq<Command>, b: seq<Command>, x: TripKey, t: Option<TripRec>, rows: map<Time, GpsPoint>,
                          shared: set<Time>) {
    && Fold(TripWriter(x), t, a) == Fold(TripWriter(x), t, b)
    && Fold(RowWriter(x, shared), rows, a) == Fold(RowWriter(x, shared), rows, b)
    && (Chain(TripWriter(x), Fitting(x), t, b) ==> Chain(TripWriter(x), Fitting(x), t, a))
  }

  lemma SameForStep(a: seq<Command>, b: seq<Command>, c: Command, x: TripKey, t: Option<TripRec>,
                    rows: map<Time, GpsPoint>, shared: set<Time>)
    requires SameFor(a, b, x, t, rows, shared)
    ensures SameFor(a + [c], b + [c], x, t, rows, shared)
    ensures !c.Of(x) ==> SameFor(a, b + [c], x, t, rows, shared)
  {
    StepMeans(a, c, x, t, rows, shared);
    StepMeans(b, c, x, t, rows, shared);
  }

  lemma SameForSelf(a: seq<Command>, x: TripKey, t: Option<TripRec>, rows: map<Time, GpsPoint>, shared: set<Time>)
    ensures SameFor(a, a, x, t, rows, shared)
  {
  }

  // ---- a queue without one trip ------------------------------------------------------------------

  lemma {:induction false} WithoutMembers(es: seq<Entry>, k: TripKey)
    ensures forall e :: e in Without(es, k) <==> e in es && !e.command.Of(k)
  {
    if es != [] {
      WithoutMembers(es[..|es| - 1], k);
      assert es == es[..|es| - 1] + [es[|es| - 1]];
    }
  }

  lemma {:induction false} WithoutSorted(es: seq<Entry>, k: TripKey)
    requires Sorted(es)
    ensures Sorted(Without(es, k))
  {
    if es != [] {
      var front, last := es[..|es| - 1], es[|es| - 1];
      WithoutSorted(front, k);
      WithoutMembers(front, k);
      var rest := Without(front, k);
      forall i | 0 <= i < |rest| ensures rest[i].id < last.id {
        assert rest[i] in rest;
        var j :| 0 <= j < |front| && front[j] == rest[i];
      }
    }
  }

  lemma {:induction false} WithoutConcat(a: seq<Entry>, b: seq<Entry>, k: TripKey)
    ensures Without(a + b, k) == Without(a, k) + Without(b, k)
    decreases |b|
  {
    if b == [] {
      assert a + b == a;
    } else {
      var f, x := b[..|b| - 1], b[|b| - 1];
      WithoutConcat(a, f, k);
      assert (a + b)[..|a + b| - 1] == a + f;
    }
  }

  lemma WithoutRemoved(es: seq<Entry>, i: nat, k: TripKey)
    requires i < |es| && es[i].command.Of(k)
    ensures Without(RemoveAt(es, i), k) == Without(es, k)
  {
    var a, b := es[..i], es[i + 1..];
    assert es == (a + [es[i]]) + b;
    WithoutConcat(a, b, k);
    WithoutConcat(a + [es[i]], b, k);
    assert (a + [es[i]])[..|a|] == a;
  }

  lemma {:induction false} OrphansOf(es: seq<Entry>, k: TripKey, now: Time)
    ensures forall d :: d in Orphans(es, k, now) ==> d.command.Of(k)
  {
    if es != [] {
      OrphansOf(es[..|es| - 1], k, now);
    }
  }

  lemma WithoutLast(front: seq<Entry>, e: Entry, k: TripKey)
    ensures Cmds(Without(front + [e], k)) == Cmds(Without(front, k)) + if e.command.Of(k) then [] else [e.command]
  {
    assert (front + [e])[..|front|] == front;
  }

  /** Dropping all commands of one trip means nothing for another. */
  lemma {:induction false} WithoutMeans(es: seq<Entry>, k: TripKey, x: TripKey, t: Option<TripRec>,
                                        rows: map<Time, GpsPoint>, shared: set<Time>)
    requires x != k
    ensures SameFor(Cmds(Without(es, k)), Cmds(es), x, t, rows, shared)
  {
    hide SameFor, Fold, Chain;
    SameForSelf([], x, t, rows, shared);
    if es != [] {
      var front, e := es[..|es| - 1], es[|es| - 1];
      var a, b := Cmds(Without(front, k)), Cmds(front);
      WithoutMeans(front, k, x, t, rows, shared);
      SameForStep(a, b, e.command, x, t, rows, shared);
      WithoutLast(front, e, k);
      CmdsLast(front, e);
      assert front + [e] == es;
      assert a + [] == a;
    }
  }

  // ---- giving up ---------------------------------------------------------------------------------

  /** The create of entry `i` has landed, and its answer cannot be read. */
  ghost predicate MayGiveUp(l: Link, i: nat) {
    && i < |l.outbox.entries|
    && var e := l.outbox.entries[i];
       && e.command.CreateTrip? && e.inFlight && e.id in l.air && l.air[e.id].reply.Some?
       && !l.air[e.id].reply.value.Refused?
  }

  function Abandon(l: Link, i: nat, now: Time): Link
    requires i < |l.outbox.entries| && l.outbox.entries[i].command.CreateTrip?
  {
    var e := l.outbox.entries[i];
    var k := e.command.key;
    l.(outbox := l.outbox.(
         entries := Without(l.outbox.entries, k),
         deadLetters := l.outbox.deadLetters + [DeadLetter(e.command, Rejected(None), now)]
                        + Orphans(RemoveAt(l.outbox.entries, i), k, now)),
       air := l.air - {e.id},
       abandoned := l.abandoned + {k})
  }

  lemma AbandonQueue(l: Link, i: nat, now: Time)
    requires Inv(l) && MayGiveUp(l, i)
    ensures QueueInv(Abandon(l, i, now))
  {
    var es := l.outbox.entries;
    var k := es[i].command.key;
    EntriesSorted(l);
    WithoutSorted(es, k);
    WithoutMembers(es, k);
    OrphansOf(RemoveAt(es, i), k, now);
    forall e | e in Without(es, k) ensures e.id < l.outbox.nextId && CommandOk(l.claims, l.samples, e.command) {
      EntryOf(l, e);
    }
  }

  lemma AbandonFlight(l: Link, i: nat, now: Time)
    requires Inv(l) && MayGiveUp(l, i)
    ensures FlightInv(Abandon(l, i, now))
  {
    hide ServerInv, KeyInv, QueueInv, OrphansInv, Landed, ReplyOf, Foremost, Resolve, Without, Orphans, RemoveAt;
    var l' := Abandon(l, i, now);
    var es, es' := l.outbox.entries, l'.outbox.entries;
    var k := es[i].command.key;
    EntriesSorted(l);
    WithoutMembers(es, k);
    assert es[i] in es;
    forall e | e in es' ensures FlightOf(l', e) {
      EntryOf(l, e);
      StaysAhead(es, es', e);
      if e.id == es[i].id {
        SortedIds(es, i, e);
      }
    }
    forall id | id in l'.air ensures exists e :: e in es' && e.id == id {
      var e :| e in es && e.id == id;
      EntryOf(l, e);
      if e.command.Of(k) {
        CreateBlocks(l, e, es[i], k);
      }
      assert e in es';
    }
  }

  lemma AbandonStrands(l: Link, i: nat, now: Time)
    requires Inv(l) && MayGiveUp(l, i) && l.outbox.entries[i].command.key !in l.late
    ensures Stranded(Abandon(l, i, now), l.outbox.entries[i].command.key)
  {
    hide ServerInv, WriteTrip, WriteRows, OwnRows, Converges;
    var es := l.outbox.entries;
    var e := es[i];
    var k := e.command.key;
    assert e in es && FlightOf(l, e) && CommandOk(l.claims, l.samples, e.command);
    CreateIsOf(l, e, k);
    KeyOf(l, k);
    WithoutMembers(es, k);
    NoTrip(l.server, k);
  }

  lemma AbandonConverges(l: Link, i: nat, now: Time, x: TripKey)
    requires Inv(l) && MayGiveUp(l, i) && x !in l.abandoned && x !in l.late && x != l.outbox.entries[i].command.key
    ensures Converges(Abandon(l, i, now), x)
  {
    hide Inv, Fold, Chain, Ideal, IdealRows, TripOf, OwnRows, Shared, Without, Orphans;
    KeyOf(l, x);
    WithoutMeans(l.outbox.entries, l.outbox.entries[i].command.key, x, TripOf(l.server, x),
                 OwnRows(l.server, x, Shared(l.samples)), Shared(l.samples));
  }

  lemma AbandonIds(l: Link, i: nat, now: Time, x: TripKey)
    requires Inv(l) && MayGiveUp(l, i) && x !in l.abandoned && x !in l.late && x != l.outbox.entries[i].command.key
    ensures IdsAgree(Abandon(l, i, now), x)
  {
    hide ServerInv, Converges, FlightInv, Without, Orphans;
    var es, es' := l.outbox.entries, Abandon(l, i, now).outbox.entries;
    WithoutMembers(es, es[i].command.key);
    KeyOf(l, x);
    forall e | e in es && e.command.Of(x) ensures e in es' {}
    forall id | CreateAhead(es, x, id) ensures CreateAhead(es', x, id) {
      var c :| c in es && IsCreateOf(c.command, x) && c.id <= id;
      assert c in es';
    }
  }

  lemma AbandonTrip(l: Link, i: nat, now: Time, x: TripKey)
    requires Inv(l) && MayGiveUp(l, i) && x !in l.abandoned && x !in l.late && x != l.outbox.entries[i].command.key
    ensures TripInv(Abandon(l, i, now), x)
  {
    hide ServerInv, Converges, IdsAgree, FlightInv, Without, Orphans;
    var l' := Abandon(l, i, now);
    var es, es' := l.outbox.entries, l'.outbox.entries;
    EntriesSorted(l);
    WithoutMembers(es, es[i].command.key);
    KeyOf(l, x);
    forall e | e in es' && IsCreateOf(e.command, x) ensures CreateOf(l', e, x) {
      CreateIsOf(l, e, x);
      if e.id == es[i].id {
        SortedIds(es, i, e);
      }
    }
    forall e | e in es' && e.command == DeleteTrip(x) ensures DeleteOf(l', e, x) {
      assert DeleteOf(l, e, x);
    }
  }

  lemma AbandonLoose(l: Link, i: nat, now: Time, x: TripKey)
    requires Inv(l) && MayGiveUp(l, i) && x in l.late
    ensures Loose(Abandon(l, i, now), x)
  {
    hide Inv, Without, Orphans, RemoveAt, Ideal;
    var k := l.outbox.entries[i].command.key;
    var es, es' := l.outbox.entries, Abandon(l, i, now).outbox.entries;
    WithoutMembers(es, k);
    LooseOf(l, x);
    CreateIsFirst(l, es[i], k);
    forall e | e in es && e.command.Of(x) && x != k
      ensures e in es' && (CreateAhead(es, x, e.id) ==> CreateAhead(es', x, e.id))
    {
      if CreateAhead(es, x, e.id) {
        var c :| c in es && IsCreateOf(c.command, x) && c.id <= e.id;
        assert c in es';
      }
    }
    if x != k && HasCreate(es, x) {
      var c :| c in es && IsCreateOf(c.command, x);
      assert c in es';
    }
  }

  lemma AbandonOrphans(l: Link, i: nat, now: Time)
    requires Inv(l) && MayGiveUp(l, i)
    ensures OrphansInv(Abandon(l, i, now))
  {
    hide ServerInv, FlightInv, KeyInv, RequestOf, CommandOk, Orphans;
    var l' := Abandon(l, i, now);
    WithoutMembers(l.outbox.entries, l.outbox.entries[i].command.key);
    forall o | o in l'.orphans ensures OrphanOk(l', o) {
      assert OrphanOk(l, o);
    }
  }

  lemma AbandonKeepsInv(l: Link, i: nat, now: Time)
    requires Inv(l) && MayGiveUp(l, i)
    ensures Inv(Abandon(l, i, now))
  {
    var k := l.outbox.entries[i].command.key;
    AbandonQueue(l, i, now);
    AbandonFlight(l, i, now);
    AbandonOrphans(l, i, now);
    hide Without, Orphans, Converges, IdsAgree, TripInv, Loose, FlightInv, QueueInv, OrphansInv, MayGiveUp;
    forall x ensures KeyInv(Abandon(l, i, now), x) {
      if x in l.late {
        AbandonLoose(l, i, now, x);
      } else if x in l.abandoned {
        StrandedOf(l, x);
        WithoutMembers(l.outbox.entries, k);
      } else if x != k {
        AbandonConverges(l, i, now, x);
        AbandonIds(l, i, now, x);
        AbandonTrip(l, i, now, x);
      } else {
        AbandonStrands(l, i, now);
      }
    }
  }
}
