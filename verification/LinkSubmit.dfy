/** Putting a command in keeps the invariant: at the end of its lane, folded into the last entry of its lane, or
    cut into batches. */
module LinkSubmit {
  import opened Basics
  import opened Commands
  import opened TripServer
  import opened ServerLaws
  import opened OutboxModel
  import opened CommandFold
  import opened TripViews
  import opened Link
  import opened LinkMirror

  lemma OtherwiseInert(c: Command, k: TripKey)
    ensures !c.Of(k) || c.UploadGps? ==> Inert(TripWriter(k), c)
    ensures !c.Of(k) ==> forall t :: Fitting(k)(t, c)
  {
  }

  lemma OtherwiseNoRows(c: Command, k: TripKey, shared: set<Time>)
    ensures !c.Of(k) || !(c.UploadGps? || c.DeleteTrip?) ==> Inert(RowWriter(k, shared), c)
  {
  }

  /** The rows of a run of commands when more instants turn out to be shared. */
  lemma {:induction false} FoldApart(k: TripKey, rows: map<Time, GpsPoint>, cs: seq<Command>, shared: set<Time>, more: set<Time>)
    requires shared <= more
    ensures Fold(RowWriter(k, more), rows - more, cs) == Fold(RowWriter(k, shared), rows, cs) - more
  {
    if cs != [] {
      var front, c := cs[..|cs| - 1], cs[|cs| - 1];
      FoldApart(k, rows, front, shared, more);
      WriteRowsApart(Fold(RowWriter(k, shared), rows, front), c, k, shared, more);
    }
  }

  lemma ConvergesApart(s: Server, k: TripKey, cs: seq<Command>, ideal: map<Time, GpsPoint>, shared: set<Time>, more: set<Time>)
    requires shared <= more
    requires Fold(RowWriter(k, shared), OwnRows(s, k, shared), cs) == ideal - shared
    ensures Fold(RowWriter(k, more), OwnRows(s, k, more), cs) == ideal - more
  {
    FoldApart(k, OwnRows(s, k, shared), cs, shared, more);
    assert OwnRows(s, k, shared) - more == OwnRows(s, k, more);
    assert (ideal - shared) - more == ideal - more;
    hide Fold, OwnRows;
  }

  lemma LandedApart(s: Server, c: Command, reply: Reply, shared: set<Time>, more: set<Time>)
    requires shared <= more && Landed(s, c, reply, shared)
    ensures Landed(s, c, reply, more)
  {
    var k := c.TripKeyOf().value;
    WriteRowsApart(OwnRows(s, k, shared), c, k, shared, more);
    assert OwnRows(s, k, shared) - more == OwnRows(s, k, more);
    hide WriteRows, OwnRows, WriteTrip, TripOf;
  }

  /** Appending one command, which for an upload is one batch. */
  function Extend(l: Link, c: Command, now: Time): Link {
    l.(outbox := Append(l.outbox, c, now), log := l.log + [c],
       claims := AddClaims(l.claims, c), samples := AddSamples(l.samples, c))
  }

  ghost predicate MayExtend(l: Link, c: Command) {
    MaySubmit(l, c) && (c.UploadGps? ==> BatchValid(c.points))
  }

  lemma Grown(l: Link, c: Command)
    requires MaySubmit(l, c)
    ensures forall x :: x in l.claims ==> x in AddClaims(l.claims, c) && AddClaims(l.claims, c)[x] == l.claims[x]
    ensures l.samples <= AddSamples(l.samples, c)
  {
  }

  lemma ServerGrows(s: Server, claims: Claims, claims': Claims, samples: Samples, samples': Samples, late: set<TripKey>)
    requires ServerInv(s, claims, samples, late)
    requires forall x :: x in claims ==> x in claims' && claims'[x] == claims[x]
    requires samples <= samples'
    ensures ServerInv(s, claims', samples', late)
  {
  }

  lemma CommandGrows(claims: Claims, claims': Claims, samples: Samples, samples': Samples, c: Command)
    requires CommandOk(claims, samples, c)
    requires forall x :: x in claims ==> x in claims' && claims'[x] == claims[x]
    requires samples <= samples'
    ensures CommandOk(claims', samples', c)
  {
  }

  lemma NewCommandOk(l: Link, c: Command)
    requires Inv(l) && MayExtend(l, c)
    ensures CommandOk(AddClaims(l.claims, c), AddSamples(l.samples, c), c)
  {
    hide Inv, Ideal, IdealRows, Fits;
    if !c.CreateTrip? {
      KnownWhenRecorded(l, c.TripKeyOf().value);
    }
  }

  lemma ExtendQueue(l: Link, c: Command, now: Time)
    requires Inv(l) && MayExtend(l, c)
    ensures var l' := Extend(l, c, now);
            ServerInv(l'.server, l'.claims, l'.samples, l'.late) && QueueInv(l')
  {
    hide Inv, ServerInv, CommandOk, MaySubmit, AddClaims, AddSamples;
    var l' := Extend(l, c, now);
    Grown(l, c);
    NewCommandOk(l, c);
    ServerOf(l);
    EntriesSorted(l);
    ServerGrows(l.server, l.claims, l'.claims, l.samples, l'.samples, l.late);
    forall e | e in l.outbox.entries ensures e.id < l.outbox.nextId && CommandOk(l'.claims, l'.samples, e.command) {
      EntryOf(l, e);
      CommandGrows(l.claims, l'.claims, l.samples, l'.samples, e.command);
    }
  }

  lemma ExtendFlight(l: Link, c: Command, now: Time)
    requires Inv(l) && MayExtend(l, c)
    ensures FlightInv(Extend(l, c, now))
  {
    hide ServerInv, Converges, Landed, Shared, Answered, Loose, ReplyOf;
    var l' := Extend(l, c, now);
    var es := l.outbox.entries;
    forall e | e in l'.outbox.entries ensures FlightOf(l', e) {
      if e in es {
        assert FlightOf(l, e);
        if e.inFlight && l.air[e.id].reply.Some? {
          StillAnswered(l, l', e.command, l.air[e.id].reply.value);
        }
        if e.command.DeleteTrip? {
          DeleteIsLast(l, e, e.command.key);
          assert CommandOk(l.claims, l.samples, e.command);
        }
      }
    }
    forall id | id in l'.air ensures exists e :: e in l'.outbox.entries && e.id == id {
      var e :| e in es && e.id == id;
      assert e in l'.outbox.entries;
    }
  }

  /** An answer means the same when more has been recorded. */
  lemma StillAnswered(l: Link, l': Link, c: Command, reply: Reply)
    requires Answered(l, c, reply) && l'.server == l.server && l'.late == l.late && l.samples <= l'.samples
    ensures Answered(l', c, reply)
  {
    hide Landed, ReplyOf;
    SharedGrows(l.samples, l'.samples);
    if c.TripKeyOf().value !in l.late {
      LandedApart(l.server, c, reply, Shared(l.samples), Shared(l'.samples));
    }
  }

  lemma ExtendOrphans(l: Link, c: Command, now: Time)
    requires Inv(l) && MayExtend(l, c)
    ensures OrphansInv(Extend(l, c, now))
  {
    hide CommandOk, RequestOf, MaySubmit, AddClaims, AddSamples;
    var l' := Extend(l, c, now);
    Grown(l, c);
    forall o | o in l'.orphans ensures OrphanOk(l', o) {
      assert OrphanOk(l, o);
      CommandGrows(l.claims, l'.claims, l.samples, l'.samples, o.command);
    }
  }

  /** What one more command means. */
  lemma StepMeans(cs: seq<Command>, c: Command, x: TripKey, t: Option<TripRec>, rows: map<Time, GpsPoint>, shared: set<Time>)
    ensures Fold(TripWriter(x), t, cs + [c]) == WriteTrip(Fold(TripWriter(x), t, cs), c, x)
    ensures Fold(RowWriter(x, shared), rows, cs + [c]) == WriteRows(Fold(RowWriter(x, shared), rows, cs), c, x, shared)
    ensures Chain(TripWriter(x), Fitting(x), t, cs + [c])
            <==> Chain(TripWriter(x), Fitting(x), t, cs) && Fits(Fold(TripWriter(x), t, cs), c, x)
  {
    FoldLast(TripWriter(x), Fitting(x), t, cs, c);
    FoldLast(RowWriter(x, shared), (a, b) => true, rows, cs, c);
    if Chain(TripWriter(x), Fitting(x), t, cs + [c]) {
      forall i | 0 <= i < |cs| ensures Fitting(x)(Fold(TripWriter(x), t, cs[..i]), cs[i]) {
        assert (cs + [c])[..i] == cs[..i] && (cs + [c])[i] == cs[i];
      }
      assert (cs + [c])[..|cs|] == cs && (cs + [c])[|cs|] == c;
    }
  }

  lemma ExtendConverges(l: Link, c: Command, now: Time, k: TripKey)
    requires Inv(l) && MayExtend(l, c) && k !in l.abandoned && k !in l.late
    ensures Converges(Extend(l, c, now), k)
  {
    hide Inv, Fold, Chain, Ideal, IdealRows, TripOf, OwnRows, WriteRows, Shared;
    var l' := Extend(l, c, now);
    var cs := Cmds(l.outbox.entries);
    var shared, more := Shared(l.samples), Shared(l'.samples);
    SharedGrows(l.samples, l'.samples);
    KeyOf(l, k);
    assert Cmds(l'.outbox.entries) == cs + [c];
    StepMeans(cs, c, k, TripOf(l.server, k), OwnRows(l.server, k, more), more);
    IdealLast(l, c, k);
    if k !in l.leaked {
      ConvergesApart(l.server, k, cs, IdealRows(l.log, k), shared, more);
      WriteRowsApart(IdealRows(l.log, k), c, k, {}, more);
    }
  }

  lemma ExtendIds(l: Link, c: Command, now: Time, k: TripKey)
    requires Inv(l) && MayExtend(l, c) && k !in l.abandoned && k !in l.late
    ensures IdsAgree(Extend(l, c, now), k)
  {
    hide Converges, FlightInv, OrphansInv, ServerInv, Stranded, Loose, Fits, AddSamples;
    var l' := Extend(l, c, now);
    var es := l.outbox.entries;
    var es' := l'.outbox.entries;
    assert KeyInv(l, k);
    assert forall e :: e in es' <==> e in es || e == es'[|es|];
    forall e | e in es && CreateAhead(es, k, e.id) ensures CreateAhead(es', k, e.id) {
      var o :| o in es && IsCreateOf(o.command, k) && o.id <= e.id;
      assert o in es';
    }
    if c.Of(k) {
      if c.CreateTrip? {
        UnknownIsBlank(l, k);
        assert IsCreateOf(es'[|es|].command, k);
      } else if k !in l.outbox.tripIds {
        OpenHasCreate(l, k);
        var o :| o in es && IsCreateOf(o.command, k);
        assert o in es' && o.id <= es'[|es|].id;
      } else {
        OpenHasNoDelete(l, k);
      }
    }
  }

  lemma OpenHasNoDelete(l: Link, k: TripKey)
    requires Inv(l) && Ideal(l.log, k).Some?
    ensures forall e :: e in l.outbox.entries ==> e.command != DeleteTrip(k)
  {
    assert KeyInv(l, k);
  }

  lemma IdealLast(l: Link, c: Command, k: TripKey)
    ensures Ideal(l.log + [c], k) == WriteTrip(Ideal(l.log, k), c, k)
    ensures IdealRows(l.log + [c], k) == WriteRows(IdealRows(l.log, k), c, k, {})
  {
    FoldLast(TripWriter(k), Fitting(k), None, l.log, c);
    FoldLast(RowWriter(k, {}), (x, y) => true, map[], l.log, c);
  }

  lemma ExtendCreate(l: Link, c: Command, now: Time, e: Entry, k: TripKey)
    requires Inv(l) && MayExtend(l, c) && k !in l.late
    requires e in Extend(l, c, now).outbox.entries && IsCreateOf(e.command, k)
    ensures CreateOf(Extend(l, c, now), e, k)
  {
    hide Inv, AddClaims, AddSamples, Fits, Ideal, TripOf, RowsOf;
    if c.Of(k) && c.CreateTrip? {
      UnknownIsBlank(l, k);
      NoTrip(l.server, k);
    }
    if e in l.outbox.entries {
      EntryOf(l, e);
      CreateIsOf(l, e, k);
    }
  }

  lemma ExtendDelete(l: Link, c: Command, now: Time, e: Entry, k: TripKey)
    requires Inv(l) && MayExtend(l, c) && k !in l.abandoned && k !in l.late
    requires e in Extend(l, c, now).outbox.entries && e.command == DeleteTrip(k)
    ensures DeleteOf(Extend(l, c, now), e, k)
  {
    hide Inv, AddClaims, AddSamples, Fits, Ideal, Converges, IdsAgree, CreateOf;
    assert e in l.outbox.entries;
    KeyOf(l, k);
    IdealLast(l, c, k);
    if c.Of(k) {
      if c.CreateTrip? {
        UnknownIsBlank(l, k);
      } else {
        OpenHasNoDelete(l, k);
      }
    }
  }

  lemma ExtendTrip(l: Link, c: Command, now: Time, k: TripKey)
    requires Inv(l) && MayExtend(l, c) && k !in l.abandoned && k !in l.late
    ensures TripInv(Extend(l, c, now), k)
  {
    hide Inv, IdsAgree, Converges, CreateOf, DeleteOf, AddSamples, Fits, Ideal, IdealRows, TripOf;
    var l' := Extend(l, c, now);
    KeyOf(l, k);
    Grown(l, c);
    IdealLast(l, c, k);
    forall e | e in l'.outbox.entries && IsCreateOf(e.command, k) ensures CreateOf(l', e, k) {
      ExtendCreate(l, c, now, e, k);
    }
    forall e | e in l'.outbox.entries && e.command == DeleteTrip(k) ensures DeleteOf(l', e, k) {
      ExtendDelete(l, c, now, e, k);
    }
  }

  /** A trip that was recorded, not cancelled, and whose id is unknown still has its create in the queue. */
  lemma OpenHasCreate(l: Link, k: TripKey)
    requires Inv(l) && Ideal(l.log, k).Some? && k !in l.outbox.tripIds && k !in l.abandoned
    ensures HasCreate(l.outbox.entries, k)
  {
    assert KeyInv(l, k);
    var es := l.outbox.entries;
    if k !in l.late && !exists e :: e in es && IsCreateOf(e.command, k) {
      forall c | c in Cmds(es) ensures Inert(TripWriter(k), c) {
        var i :| 0 <= i < |es| && c == es[i].command;
        assert es[i] in es;
        OtherwiseInert(c, k);
      }
      FoldInert(TripWriter(k), TripOf(l.server, k), Cmds(es));
    }
  }

  lemma UnknownIsBlank(l: Link, k: TripKey)
    requires Inv(l) && !Known(l.claims, k)
    ensures TripOf(l.server, k).None? && forall e :: e in l.outbox.entries ==> !e.command.Of(k)
  {
    NoTrip(l.server, k);
    forall e | e in l.outbox.entries ensures !e.command.Of(k) {
      assert CommandOk(l.claims, l.samples, e.command);
    }
  }

  lemma ExtendKeepsInv(l: Link, c: Command, now: Time)
    requires Inv(l) && MayExtend(l, c)
    ensures Inv(Extend(l, c, now))
  {
    ExtendQueue(l, c, now);
    ExtendFlight(l, c, now);
    ExtendOrphans(l, c, now);
    hide Converges, IdsAgree, TripInv, Loose, Stranded, ServerInv, QueueInv, FlightInv, OrphansInv;
    forall k ensures KeyInv(Extend(l, c, now), k) {
      if k in l.late {
        ExtendLoose(l, c, now, k);
      } else if k in l.abandoned {
        ExtendStranded(l, c, now, k);
      } else {
        ExtendConverges(l, c, now, k);
        ExtendIds(l, c, now, k);
        ExtendTrip(l, c, now, k);
      }
    }
  }

  lemma ExtendStranded(l: Link, c: Command, now: Time, k: TripKey)
    requires Inv(l) && MayExtend(l, c) && k in l.abandoned && k !in l.late
    ensures Stranded(Extend(l, c, now), k)
  {
    StrandedOf(l, k);
    Grown(l, c);
  }

  lemma ExtendLoose(l: Link, c: Command, now: Time, k: TripKey)
    requires Inv(l) && MayExtend(l, c) && k in l.late
    ensures Loose(Extend(l, c, now), k)
  {
    hide Inv, Fits, AddClaims, WriteTrip, Ideal, IdealRows, CreateLeads, DeleteLasts, CreateAhead, HasCreate;
    var l' := Extend(l, c, now);
    var es, es' := l.outbox.entries, l'.outbox.entries;
    LooseOf(l, k);
    Grown(l, c);
    IdealLast(l, c, k);
    forall e | e in es ensures e.id < l.outbox.nextId {
      EntryOf(l, e);
    }
    var n := es'[|es|];
    assert forall e :: e in es' <==> e in es || e == n;
    if c.Of(k) {
      assert !c.CreateTrip? && !c.DeleteTrip? && Ideal(l.log, k).Some?;
      if k !in l.abandoned && k !in l.outbox.tripIds {
        AheadOfNew(es, es', n, k);
      }
    } else {
      assert Ideal(l'.log, k) == Ideal(l.log, k) by { OthersKeep(l, c, k); }
    }
    forall e | e in es && e.command.Of(k)
      ensures IsCreateOf(e.command, k) ==> CreateLeads(es', e, k)
      ensures e.command == DeleteTrip(k) && !c.Of(k) ==> DeleteLasts(es', e, k)
      ensures CreateAhead(es, k, e.id) ==> CreateAhead(es', k, e.id)
    {
      StaysOrdered(es, es', n, e, k);
    }
    if HasCreate(es, k) {
      StillHasCreate(es, es', k);
    }
  }

  lemma OthersKeep(l: Link, c: Command, k: TripKey)
    requires !c.Of(k)
    ensures WriteTrip(Ideal(l.log, k), c, k) == Ideal(l.log, k)
  {
  }

  lemma StillHasCreate(es: seq<Entry>, es': seq<Entry>, k: TripKey)
    requires HasCreate(es, k) && forall e :: e in es ==> e in es'
    ensures HasCreate(es', k)
  {
  }

  lemma AheadOfNew(es: seq<Entry>, es': seq<Entry>, n: Entry, k: TripKey)
    requires HasCreate(es, k) && (forall e :: e in es ==> e in es' && e.id < n.id)
    ensures CreateAhead(es', k, n.id)
  {
    var c :| c in es && IsCreateOf(c.command, k);
    assert c in es';
  }

  lemma StaysOrdered(es: seq<Entry>, es': seq<Entry>, n: Entry, e: Entry, k: TripKey)
    requires e in es && n !in es && (forall o :: o in es' <==> o in es || o == n) && forall o :: o in es ==> o.id < n.id
    ensures CreateLeads(es, e, k) && !n.command.CreateTrip? ==> CreateLeads(es', e, k)
    ensures CreateLeads(es, e, k) && !n.command.Of(k) ==> CreateLeads(es', e, k)
    ensures DeleteLasts(es, e, k) && !n.command.Of(k) ==> DeleteLasts(es', e, k)
    ensures CreateAhead(es, k, e.id) ==> CreateAhead(es', k, e.id)
  {
  }

  // ---- folding into the last entry of the lane ---------------------------------------------------

  ghost predicate MayMerge(l: Link, c: Command, i: nat) {
    && MaySubmit(l, c) && !c.UploadGps?
    && i < |l.outbox.entries| && i == MergeTarget(l.outbox.entries, c)
  }

  lemma MergeQueue(l: Link, c: Command, now: Time, i: nat)
    requires Inv(l) && MayMerge(l, c, i)
    ensures var l' := Submit(l, c, now);
            ServerInv(l'.server, l'.claims, l'.samples, l'.late) && QueueInv(l')
  {
    hide FlightInv, KeyInv;
    Grown(l, c);
    var l' := Submit(l, c, now);
    var es := l.outbox.entries;
    assert es[i] in es && CommandOk(l.claims, l.samples, es[i].command);
    ServerGrows(l.server, l.claims, l'.claims, l.samples, l'.samples, l.late);
    hide ServerInv;
    forall e | e in l'.outbox.entries
      ensures e.id < l'.outbox.nextId && CommandOk(l'.claims, l'.samples, e.command)
    {
      var j :| 0 <= j < |es| && e == l'.outbox.entries[j];
      assert es[j] in es && CommandOk(l.claims, l.samples, es[j].command);
    }
  }

  lemma MergeOrphans(l: Link, c: Command, now: Time, i: nat)
    requires Inv(l) && MayMerge(l, c, i)
    ensures OrphansInv(Submit(l, c, now))
  {
    hide CommandOk, RequestOf, MaySubmit, AddClaims, AddSamples, KeyInv, ServerInv, FlightInv;
    var l' := Submit(l, c, now);
    Grown(l, c);
    MergeMirrors(l, c, now, i);
    forall o | o in l'.orphans ensures OrphanOk(l', o) {
      assert OrphanOk(l, o);
      CommandGrows(l.claims, l'.claims, l.samples, l'.samples, o.command);
      MirrorOrphans(l, l', o);
    }
  }

  lemma MergeMirrors(l: Link, c: Command, now: Time, i: nat)
    requires MayMerge(l, c, i)
    ensures Mirrors(l.outbox.entries, Submit(l, c, now).outbox.entries)
  {
  }

  lemma MergeFlight(l: Link, c: Command, now: Time, i: nat)
    requires Inv(l) && MayMerge(l, c, i)
    ensures FlightInv(Submit(l, c, now))
  {
    var l' := Submit(l, c, now);
    MergeMirrors(l, c, now, i);
    forall j | 0 <= j < |l.outbox.entries| ensures StillInFlight(l, l', l.outbox.entries[j], l'.outbox.entries[j]) {
      assert l.outbox.entries[j] in l.outbox.entries && FlightOf(l, l.outbox.entries[j]);
    }
    MirrorFlight(l, l');
  }

  /** What the merged command does equals what the waiting one and then the new one do. */
  lemma MergedMeans(t: Option<TripRec>, older: Command, newer: Command, k: TripKey)
    requires Merged(older, newer).Some? && older.Of(k) && newer.Of(k)
    ensures WriteTrip(t, Merged(older, newer).value, k) == WriteTrip(WriteTrip(t, older, k), newer, k)
    ensures Fits(t, older, k) && Fits(WriteTrip(t, older, k), newer, k) ==> Fits(t, Merged(older, newer).value, k)
  {
    if t.Some? {
      if older.UpsertAttempt? {
        UpsertMergeLaw(t.value, older.upsert, newer.upsert);
        assert older.upsert.MergedWith(newer.upsert).Seq() == older.upsert.Seq();
      } else {
        PatchMergeLaw(t.value, older.patch, newer.patch);
      }
    }
  }

  lemma MergeFolds(t: Option<TripRec>, cs: seq<Command>, i: nat, c: Command, k: TripKey)
    requires i < |cs| && Merged(cs[i], c).Some? && cs[i].Of(k) && c.Of(k)
    requires forall j :: i < j < |cs| ==> cs[j].LaneOf() != RecordLane(k)
    requires Chain(TripWriter(k), Fitting(k), t, cs) && Fits(Fold(TripWriter(k), t, cs), c, k)
    ensures var merged := Merged(cs[i], c).value;
            && Fold(TripWriter(k), t, cs[i := merged]) == WriteTrip(Fold(TripWriter(k), t, cs), c, k)
            && Chain(TripWriter(k), Fitting(k), t, cs[i := merged])
  {
    var merged := Merged(cs[i], c).value;
    forall j | i < j < |cs| ensures Inert(TripWriter(k), cs[j])
                            && forall x, y :: Fitting(k)(x, cs[j]) ==> Fitting(k)(y, cs[j]) {
      OtherwiseInert(cs[j], k);
    }
    var before := Fold(TripWriter(k), t, cs[..i]);
    FoldThenInert(TripWriter(k), t, cs, i);
    MergedMeans(before, cs[i], c, k);
    FoldMerged(TripWriter(k), Fitting(k), t, cs, i, merged, c);
    assert Fitting(k)(before, cs[i]);
    ChainMerged(TripWriter(k), Fitting(k), t, cs, i, merged);
  }

  lemma MergeRows(es: seq<Entry>, rows: map<Time, GpsPoint>, c: Command, i: nat, k: TripKey, shared: set<Time>)
    requires !c.UploadGps? && !c.DeleteTrip? && i < |es| && i == MergeTarget(es, c)
    ensures Fold(RowWriter(k, shared), rows, Cmds(es)[i := Merged(es[i].command, c).value])
            == Fold(RowWriter(k, shared), rows, Cmds(es))
  {
    OtherwiseNoRows(es[i].command, k, shared);
    OtherwiseNoRows(Merged(es[i].command, c).value, k, shared);
    FoldSwapInert(RowWriter(k, shared), rows, Cmds(es), i, Merged(es[i].command, c).value);
  }

  lemma MergeTrips(es: seq<Entry>, t: Option<TripRec>, c: Command, i: nat, k: TripKey)
    requires !c.UploadGps? && !c.DeleteTrip? && i < |es| && i == MergeTarget(es, c)
    requires Chain(TripWriter(k), Fitting(k), t, Cmds(es))
    requires c.Of(k) ==> Fits(Fold(TripWriter(k), t, Cmds(es)), c, k)
    ensures var after := Cmds(es)[i := Merged(es[i].command, c).value];
            && Fold(TripWriter(k), t, after) == WriteTrip(Fold(TripWriter(k), t, Cmds(es)), c, k)
            && Chain(TripWriter(k), Fitting(k), t, after)
  {
    var cs := Cmds(es);
    var merged := Merged(cs[i], c).value;
    if c.Of(k) {
      forall j | i < j < |cs| ensures cs[j].LaneOf() != RecordLane(k) {
        assert es[j].command.LaneOf() != c.LaneOf();
      }
      MergeFolds(t, cs, i, c, k);
    } else {
      OtherwiseInert(cs[i], k);
      OtherwiseInert(merged, k);
      FoldSwapInert(TripWriter(k), t, cs, i, merged);
      ChainSwapInert(TripWriter(k), Fitting(k), t, cs, i, merged);
    }
  }

  lemma MergeConverges(l: Link, c: Command, now: Time, i: nat, k: TripKey)
    requires Inv(l) && MayMerge(l, c, i) && k !in l.abandoned && k !in l.late
    ensures Converges(Submit(l, c, now), k)
  {
    hide ServerInv, QueueInv, FlightInv, IdsAgree, Fold, Chain, Ideal, IdealRows, TripOf, OwnRows, Shared;
    var l' := Submit(l, c, now);
    var es := l.outbox.entries;
    assert KeyInv(l, k);
    assert Cmds(l'.outbox.entries) == Cmds(es)[i := Merged(es[i].command, c).value];
    MergeTrips(es, TripOf(l.server, k), c, i, k);
    MergeRows(es, OwnRows(l.server, k, Shared(l.samples)), c, i, k, Shared(l.samples));
    IdealLast(l, c, k);
  }

  lemma MergeIds(l: Link, c: Command, now: Time, i: nat, k: TripKey)
    requires Inv(l) && MayMerge(l, c, i) && k !in l.abandoned && k !in l.late
    ensures IdsAgree(Submit(l, c, now), k) && TripInv(Submit(l, c, now), k)
  {
    hide ServerInv, QueueInv, FlightInv, Converges, IdsAgree;
    var l' := Submit(l, c, now);
    var es := l.outbox.entries;
    KeyOf(l, k);
    Grown(l, c);
    IdealLast(l, c, k);
    MergeMirrors(l, c, now, i);
    MirrorIds(l, l', k);
    forall j | 0 <= j < |es| && IsCreateOf(es[j].command, k) ensures Excused(l', l'.outbox.entries[j], k) {
      assert es[j] in es && CreateOf(l, es[j], k);
    }
    MirrorTrip(l, l', k);
  }

  lemma MergeKeepsInv(l: Link, c: Command, now: Time, i: nat)
    requires Inv(l) && MayMerge(l, c, i)
    ensures Inv(Submit(l, c, now))
  {
    MergeQueue(l, c, now, i);
    MergeFlight(l, c, now, i);
    MergeOrphans(l, c, now, i);
    hide Converges, IdsAgree, TripInv, Loose, Stranded, ServerInv, QueueInv, FlightInv, OrphansInv;
    forall k ensures KeyInv(Submit(l, c, now), k) {
      if k in l.late {
        MergeLoose(l, c, now, i, k);
      } else if k in l.abandoned {
        StrandedOf(l, k);
        Grown(l, c);
        MergeMirrors(l, c, now, i);
        MirrorStranded(l, Submit(l, c, now), k);
      } else {
        MergeConverges(l, c, now, i, k);
        MergeIds(l, c, now, i, k);
      }
    }
  }

  lemma MergeLoose(l: Link, c: Command, now: Time, i: nat, k: TripKey)
    requires Inv(l) && MayMerge(l, c, i) && k in l.late
    ensures Loose(Submit(l, c, now), k)
  {
    hide ServerInv, FlightInv, Converges, Loose, Fits;
    LooseOf(l, k);
    Grown(l, c);
    IdealLast(l, c, k);
    MergeMirrors(l, c, now, i);
    MirrorLoose(l, Submit(l, c, now), k);
  }

  // ---- uploads, cut into batches -----------------------------------------------------------------

  function ExtendAll(l: Link, owner: Option<TripKey>, points: seq<GpsPoint>, now: Time): Link
    decreases |points|
  {
    if points == [] then l
    else
      var n := if |points| < MAX_GPS_POINTS then |points| else MAX_GPS_POINTS;
      ExtendAll(Extend(l, UploadGps(owner, points[..n]), now), owner, points[n..], now)
  }

  lemma {:induction false} ExtendAllKeepsInv(l: Link, owner: Option<TripKey>, points: seq<GpsPoint>, now: Time)
    requires Inv(l) && (points != [] ==> MaySubmit(l, UploadGps(owner, points)))
    ensures Inv(ExtendAll(l, owner, points, now))
    decreases |points|
  {
    if points != [] {
      var n := if |points| < MAX_GPS_POINTS then |points| else MAX_GPS_POINTS;
      var c := UploadGps(owner, points[..n]);
      ExtendKeepsInv(l, c, now);
      IdealLast(l, c, owner.value);
      var l' := Extend(l, c, now);
      if points[n..] != [] {
        forall p | p in points[n..] ensures PointValid(p) {
          assert p in points;
        }
      }
      ExtendAllKeepsInv(l', owner, points[n..], now);
    }
  }

  lemma SamplesSplit(samples: Samples, owner: Option<TripKey>, a: seq<GpsPoint>, b: seq<GpsPoint>)
    ensures AddSamples(AddSamples(samples, UploadGps(owner, a)), UploadGps(owner, b))
            == AddSamples(samples, UploadGps(owner, a + b))
  {
    if owner.Some? {
      assert SamplesOf(a + b, owner.value) == SamplesOf(a, owner.value) + SamplesOf(b, owner.value);
    }
  }

  /** Cutting an upload changes nothing but the log. */
  lemma {:induction false} ExtendAllShape(l: Link, owner: Option<TripKey>, points: seq<GpsPoint>, now: Time)
    requires owner.Some?
    ensures var l' := ExtendAll(l, owner, points, now);
            l' == l.(outbox := AppendAll(l.outbox, owner, points, now), log := l'.log,
                     samples := AddSamples(l.samples, UploadGps(owner, points)))
    decreases |points|
  {
    if points == [] {
      assert AddSamples(l.samples, UploadGps(owner, points)) == l.samples;
    } else {
      var n := if |points| < MAX_GPS_POINTS then |points| else MAX_GPS_POINTS;
      ExtendAllShape(Extend(l, UploadGps(owner, points[..n]), now), owner, points[n..], now);
      assert points == points[..n] + points[n..];
      SamplesSplit(l.samples, owner, points[..n], points[n..]);
    }
  }

  /** Nor does it change what the log means. */
  lemma {:induction false} ExtendAllMeans(l: Link, owner: Option<TripKey>, points: seq<GpsPoint>, now: Time, k: TripKey)
    requires owner.Some?
    ensures var log := ExtendAll(l, owner, points, now).log;
            && Ideal(log, k) == Ideal(l.log, k)
            && IdealRows(log, k) == WriteRows(IdealRows(l.log, k), UploadGps(owner, points), k, {})
    decreases |points|
  {
    hide Ideal, IdealRows;
    if points != [] {
      var n := if |points| < MAX_GPS_POINTS then |points| else MAX_GPS_POINTS;
      var c := UploadGps(owner, points[..n]);
      var mid := Extend(l, c, now);
      ExtendAllMeans(mid, owner, points[n..], now, k);
      assert points == points[..n] + points[n..];
      IdealLast(l, c, k);
      AddPointsSplit(IdealRows(l.log, k), points[..n], points[n..], {});
    }
  }

  lemma SameMeaning(l: Link, log: seq<Command>)
    requires Inv(l)
    requires forall k :: Ideal(log, k) == Ideal(l.log, k) && IdealRows(log, k) == IdealRows(l.log, k)
    ensures Inv(l.(log := log))
  {
    var l' := l.(log := log);
    assert QueueInv(l');
    forall e | e in l'.outbox.entries ensures FlightOf(l', e) {
      assert FlightOf(l, e);
    }
    assert FlightInv(l');
    forall o | o in l'.orphans ensures OrphanOk(l', o) {
      assert OrphanOk(l, o);
    }
    forall k ensures KeyInv(l', k) {
      assert KeyInv(l, k);
      if k !in l.abandoned && k !in l.late {
        assert forall e: Entry :: IsCreateOf(e.command, k) && CreateOf(l, e, k) ==> CreateOf(l', e, k);
        assert forall e: Entry :: DeleteOf(l, e, k) ==> DeleteOf(l', e, k);
        assert TripInv(l', k);
      }
    }
  }

  /** Whatever the recorder may put in, the outbox takes without breaking the invariant. */
  lemma SubmitKeepsInv(l: Link, c: Command, now: Time)
    requires Inv(l) && MaySubmit(l, c)
    ensures Inv(Submit(l, c, now))
  {
    if c.UploadGps? {
      ExtendAllKeepsInv(l, c.owner, c.points, now);
      ExtendAllShape(l, c.owner, c.points, now);
      var l' := ExtendAll(l, c.owner, c.points, now);
      forall k ensures Ideal(l.log + [c], k) == Ideal(l'.log, k) && IdealRows(l.log + [c], k) == IdealRows(l'.log, k) {
        ExtendAllMeans(l, c.owner, c.points, now, k);
        IdealLast(l, c, k);
      }
      SameMeaning(l', l.log + [c]);
    } else if 0 <= MergeTarget(l.outbox.entries, c) {
      MergeKeepsInv(l, c, now, MergeTarget(l.outbox.entries, c));
    } else {
      ExtendKeepsInv(l, c, now);
    }
  }
}
