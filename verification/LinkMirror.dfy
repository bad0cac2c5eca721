/** Steps that change entries in place: what they leave as it was. */
module LinkMirror {
  import opened Basics
  import opened Commands
  import opened TripServer
  import opened OutboxModel
  import opened CommandFold
  import opened TripViews
  import opened Link

  /** The same place in the queue, and the same command or a merged one. */
  predicate Mirror(e: Entry, e': Entry) {
    && e'.id == e.id
    && e'.command.LaneOf() == e.command.LaneOf()
    && (e'.command == e.command
        || (e.command.UpdateTrip? && e'.command.UpdateTrip?)
        || (e.command.UpsertAttempt? && e'.command.UpsertAttempt?))
  }

  predicate Mirrors(es: seq<Entry>, es': seq<Entry>) {
    |es| == |es'| && forall j :: 0 <= j < |es| ==> Mirror(es[j], es'[j])
  }

  lemma MirrorSameKey(e: Entry, e': Entry, k: TripKey)
    requires Mirror(e, e')
    ensures e'.command.Of(k) <==> e.command.Of(k)
    ensures IsCreateOf(e'.command, k) <==> IsCreateOf(e.command, k)
    ensures e'.command == DeleteTrip(k) <==> e.command == DeleteTrip(k)
    ensures e'.command.DeleteTrip? <==> e.command.DeleteTrip?
    ensures e'.command.CreateTrip? ==> e'.command == e.command
  {
  }

  lemma Source(es: seq<Entry>, es': seq<Entry>, e': Entry) returns (e: Entry)
    requires Mirrors(es, es') && e' in es'
    ensures e in es && Mirror(e, e')
  {
    var j :| 0 <= j < |es'| && es'[j] == e';
    e := es[j];
  }

  lemma Image(es: seq<Entry>, es': seq<Entry>, e: Entry) returns (e': Entry)
    requires Mirrors(es, es') && e in es
    ensures e' in es' && Mirror(e, e')
  {
    var j :| 0 <= j < |es| && es[j] == e;
    e' := es'[j];
  }

  lemma MirrorPlace(es: seq<Entry>, es': seq<Entry>, e: Entry, e': Entry)
    requires Mirrors(es, es') && Mirror(e, e')
    ensures IsHead(es, e) ==> IsHead(es', e')
    ensures forall k :: Alone(es, e, k) ==> Alone(es', e', k)
    ensures Foremost(es, e) ==> Foremost(es', e')
  {
    if IsHead(es, e) {
      forall o' | o' in es' && o'.id < e'.id ensures o'.command.LaneOf() != e'.command.LaneOf() {
        var o := Source(es, es', o');
      }
    }
    forall k | Alone(es, e, k) ensures Alone(es', e', k) {
      forall o' | o' in es' && o'.id != e'.id ensures !o'.command.Of(k) {
        var o := Source(es, es', o');
        MirrorSameKey(o, o', k);
      }
    }
  }

  lemma MirrorIds(l: Link, l': Link, k: TripKey)
    requires Mirrors(l.outbox.entries, l'.outbox.entries)
    requires l'.outbox.tripIds == l.outbox.tripIds && l'.server == l.server && l'.leaked == l.leaked
    requires IdsAgree(l, k)
    ensures IdsAgree(l', k)
  {
    var es, es' := l.outbox.entries, l'.outbox.entries;
    if k in l.outbox.tripIds {
      forall e' | e' in es' && e'.command.Of(k) ensures !e'.command.CreateTrip? {
        var e := Source(es, es', e');
        MirrorSameKey(e, e', k);
      }
      if !Bears(l.server, l.outbox.tripIds[k], k) {
        forall e' | e' in es' && e'.command.Of(k) ensures e'.command.DeleteTrip? {
          var e := Source(es, es', e');
          MirrorSameKey(e, e', k);
        }
        var e :| e in es && e.command == DeleteTrip(k);
        var e' := Image(es, es', e);
        MirrorSameKey(e, e', k);
      }
    } else {
      forall e' | e' in es' && e'.command.Of(k) ensures CreateAhead(es', k, e'.id) {
        var e := Source(es, es', e');
        MirrorSameKey(e, e', k);
        var c :| c in es && IsCreateOf(c.command, k) && c.id <= e.id;
        var c' := Image(es, es', c);
        MirrorSameKey(c, c', k);
      }
      if TripOf(l.server, k).Some? && k !in l.leaked {
        var e :| e in es && IsCreateOf(e.command, k);
        var e' := Image(es, es', e);
        MirrorSameKey(e, e', k);
      }
    }
  }

  /** The history of a create that reached the server without an answer. */
  ghost predicate Excused(l: Link, e: Entry, k: TripKey) {
    TripOf(l.server, k).Some? && e.failures == 0 ==>
      k in l.interrupted || (e.id in l.air && l.air[e.id].reply.Some?)
  }

  lemma MirrorTrip(l: Link, l': Link, k: TripKey)
    requires Mirrors(l.outbox.entries, l'.outbox.entries)
    requires l'.outbox.tripIds == l.outbox.tripIds && l'.server == l.server && l'.leaked == l.leaked
    requires l.interrupted <= l'.interrupted
    requires Ideal(l.log, k).None? ==> Ideal(l'.log, k).None? && IdealRows(l'.log, k) == IdealRows(l.log, k)
    requires Known(l.claims, k) ==> Known(l'.claims, k)
    requires forall j :: 0 <= j < |l.outbox.entries| && IsCreateOf(l.outbox.entries[j].command, k) ==>
               Excused(l', l'.outbox.entries[j], k)
    requires TripInv(l, k)
    ensures TripInv(l', k)
  {
    var es, es' := l.outbox.entries, l'.outbox.entries;
    forall e' | e' in es' && IsCreateOf(e'.command, k) ensures CreateOf(l', e', k) {
      MirrorCreate(l, l', e', k);
    }
    forall e' | e' in es' && e'.command == DeleteTrip(k) ensures DeleteOf(l', e', k) {
      MirrorDelete(l, l', e', k);
    }
    if k in l.leaked {
      forall e' | e' in es' ensures !e'.command.Of(k) {
        var e := Source(es, es', e');
        MirrorSameKey(e, e', k);
      }
    }
  }

  lemma MirrorCreate(l: Link, l': Link, e': Entry, k: TripKey)
    requires Mirrors(l.outbox.entries, l'.outbox.entries) && l'.server == l.server
    requires e' in l'.outbox.entries && IsCreateOf(e'.command, k)
    requires forall j :: 0 <= j < |l.outbox.entries| && IsCreateOf(l.outbox.entries[j].command, k) ==>
               Excused(l', l'.outbox.entries[j], k)
    requires TripInv(l, k)
    ensures CreateOf(l', e', k)
  {
    var es, es' := l.outbox.entries, l'.outbox.entries;
    var j :| 0 <= j < |es'| && es'[j] == e';
    var e := es[j];
    assert e in es && Mirror(e, e');
    MirrorSameKey(e, e', k);
    assert CreateOf(l, e, k);
    MirrorOrder(es, es', e, e', k);
  }

  /** Creates stay first and deletes last. */
  lemma MirrorOrder(es: seq<Entry>, es': seq<Entry>, e: Entry, e': Entry, k: TripKey)
    requires Mirrors(es, es') && Mirror(e, e')
    ensures CreateLeads(es, e, k) ==> CreateLeads(es', e', k)
    ensures DeleteLasts(es, e, k) ==> DeleteLasts(es', e', k)
  {
    forall o' | o' in es' && o'.id != e'.id && o'.command.Of(k)
      ensures CreateLeads(es, e, k) ==> e'.id < o'.id && !o'.command.CreateTrip?
      ensures DeleteLasts(es, e, k) ==> o'.id < e'.id
    {
      var o := Source(es, es', o');
      MirrorSameKey(o, o', k);
    }
  }

  lemma MirrorDelete(l: Link, l': Link, e': Entry, k: TripKey)
    requires Mirrors(l.outbox.entries, l'.outbox.entries) && l'.leaked == l.leaked
    requires Ideal(l.log, k).None? ==> Ideal(l'.log, k).None?
    requires e' in l'.outbox.entries && e'.command == DeleteTrip(k)
    requires TripInv(l, k)
    ensures DeleteOf(l', e', k)
  {
    var es, es' := l.outbox.entries, l'.outbox.entries;
    var e := Source(es, es', e');
    MirrorSameKey(e, e', k);
    assert DeleteOf(l, e, k);
    MirrorOrder(es, es', e, e', k);
  }

  lemma MirrorStranded(l: Link, l': Link, k: TripKey)
    requires Mirrors(l.outbox.entries, l'.outbox.entries)
    requires l'.outbox.tripIds == l.outbox.tripIds && l'.server == l.server
    requires Known(l.claims, k) ==> Known(l'.claims, k)
    requires Stranded(l, k)
    ensures Stranded(l', k)
  {
    var es, es' := l.outbox.entries, l'.outbox.entries;
    forall e' | e' in es' && e'.command.Of(k) ensures !e'.command.CreateTrip? && !e'.command.DeleteTrip? {
      var e := Source(es, es', e');
      MirrorSameKey(e, e', k);
    }
  }

  lemma SameOfAhead(es: seq<Entry>, es': seq<Entry>, x: TripKey, id: nat)
    requires forall e: Entry :: e.command.Of(x) ==> (e in es' <==> e in es)
    ensures CreateAhead(es, x, id) ==> CreateAhead(es', x, id)
    ensures HasCreate(es, x) ==> HasCreate(es', x)
  {
    if CreateAhead(es, x, id) {
      var c :| c in es && IsCreateOf(c.command, x) && c.id <= id;
      assert c in es';
    }
    if HasCreate(es, x) {
      var c :| c in es && IsCreateOf(c.command, x);
      assert c in es';
    }
  }

  /** With the same entries and the same id of a trip the outbox sees the same of it. */
  lemma SameOfIsLoose(l: Link, l': Link, x: TripKey)
    requires Loose(l, x) && l'.server == l.server && l'.claims == l.claims && l'.abandoned == l.abandoned
    requires x in l'.outbox.tripIds <==> x in l.outbox.tripIds
    requires x in l.outbox.tripIds ==> l'.outbox.tripIds[x] == l.outbox.tripIds[x]
    requires Ideal(l'.log, x).None? <==> Ideal(l.log, x).None?
    requires forall e: Entry :: e.command.Of(x) ==> (e in l'.outbox.entries <==> e in l.outbox.entries)
    ensures Loose(l', x)
  {
    hide Ideal, OwnId, CreateAhead, HasCreate;
    SameOfAhead(l.outbox.entries, l'.outbox.entries, x, 0);
    forall e | e in l.outbox.entries && e.command.Of(x)
      ensures CreateAhead(l.outbox.entries, x, e.id) ==> CreateAhead(l'.outbox.entries, x, e.id)
    {
      SameOfAhead(l.outbox.entries, l'.outbox.entries, x, e.id);
    }
  }

  lemma SameOfAgrees(l: Link, l': Link, x: TripKey)
    requires IdsAgree(l, x) && l'.server == l.server && l'.outbox.tripIds == l.outbox.tripIds && l.leaked <= l'.leaked
    requires forall e: Entry :: e.command.Of(x) ==> (e in l'.outbox.entries <==> e in l.outbox.entries)
    ensures IdsAgree(l', x)
  {
    hide TripOf, CreateAhead;
    var es, es' := l.outbox.entries, l'.outbox.entries;
    if x !in l.outbox.tripIds {
      SameOfAhead(es, es', x, 0);
      forall e | e in es && e.command.Of(x) ensures CreateAhead(es, x, e.id) ==> CreateAhead(es', x, e.id) {
        SameOfAhead(es, es', x, e.id);
      }
    } else if e :| e in es && e.command == DeleteTrip(x) {
      assert e in es';
    }
  }

  lemma MirrorAhead(es: seq<Entry>, es': seq<Entry>, k: TripKey, id: nat)
    requires Mirrors(es, es') && CreateAhead(es, k, id)
    ensures CreateAhead(es', k, id)
  {
    var c :| c in es && IsCreateOf(c.command, k) && c.id <= id;
    var c' := Image(es, es', c);
    MirrorSameKey(c, c', k);
  }

  lemma MirrorLoose(l: Link, l': Link, k: TripKey)
    requires Mirrors(l.outbox.entries, l'.outbox.entries)
    requires l'.outbox.tripIds == l.outbox.tripIds && l'.server == l.server && l'.abandoned == l.abandoned
    requires Known(l.claims, k) ==> Known(l'.claims, k)
    requires Ideal(l.log, k).None? <==> Ideal(l'.log, k).None?
    requires Loose(l, k)
    ensures Loose(l', k)
  {
    var es, es' := l.outbox.entries, l'.outbox.entries;
    if HasCreate(es, k) {
      var c :| c in es && IsCreateOf(c.command, k);
      var c' := Image(es, es', c);
      MirrorSameKey(c, c', k);
    }
    forall e' | e' in es' && e'.command.Of(k)
      ensures k in l.outbox.tripIds ==> !e'.command.CreateTrip?
      ensures IsCreateOf(e'.command, k) ==> CreateLeads(es', e', k)
      ensures e'.command == DeleteTrip(k) ==> Ideal(l'.log, k).None? && DeleteLasts(es', e', k)
      ensures k in l.abandoned ==> !e'.command.CreateTrip? && !e'.command.DeleteTrip?
      ensures k !in l.abandoned && k !in l.outbox.tripIds ==> CreateAhead(es', k, e'.id)
    {
      var e := Source(es, es', e');
      MirrorSameKey(e, e', k);
      MirrorOrder(es, es', e, e', k);
      if CreateAhead(es, k, e.id) {
        MirrorAhead(es, es', k, e.id);
      }
    }
  }

  /** Forgotten requests stay as they are when creates that failed are not made to look untried. */
  lemma MirrorOrphans(l: Link, l': Link, o: Orphan)
    requires OrphanOk(l, o) && Mirrors(l.outbox.entries, l'.outbox.entries) && l'.server == l.server
    requires l.outbox.nextId <= l'.outbox.nextId && l.interrupted <= l'.interrupted
    requires CommandOk(l'.claims, l'.samples, o.command)
    requires forall j :: 0 <= j < |l.outbox.entries| && l.outbox.entries[j].failures > 0 ==>
               l'.outbox.entries[j].failures > 0
    ensures OrphanOk(l', o)
  {
    var es, es' := l.outbox.entries, l'.outbox.entries;
    if o.command.CreateTrip? && o.command.key !in l.interrupted {
      forall e' | e' in es' && e'.id == o.id ensures e'.failures > 0 {
        var j :| 0 <= j < |es'| && es'[j] == e';
        assert es[j] in es;
      }
    }
  }

  /** What a changed entry still owes: a tried entry was tried before, and being on its way matches the air. */
  ghost predicate StillInFlight(l: Link, l': Link, e: Entry, e': Entry) {
    && (Tried(e') ==> Tried(e))
    && (e'.inFlight <==> e'.id in l'.air)
    && (e'.inFlight ==> e.inFlight && e'.command == e.command && e.id in l.air && l'.air[e'.id] == l.air[e.id])
  }

  lemma MirrorFlight(l: Link, l': Link)
    requires Mirrors(l.outbox.entries, l'.outbox.entries)
    requires l'.outbox.tripIds == l.outbox.tripIds && l'.server == l.server && l'.samples == l.samples && l'.late == l.late
    requires l'.air.Keys <= l.air.Keys
    requires forall j :: 0 <= j < |l.outbox.entries| ==>
               StillInFlight(l, l', l.outbox.entries[j], l'.outbox.entries[j])
    requires FlightInv(l)
    ensures FlightInv(l')
  {
    var es, es' := l.outbox.entries, l'.outbox.entries;
    forall e' | e' in es' ensures FlightOf(l', e') {
      var j :| 0 <= j < |es| && es'[j] == e';
      MirrorFlightOf(l, l', es[j], e');
    }
    forall id | id in l'.air ensures exists e' :: e' in es' && e'.id == id {
      assert id in l.air;
      var e :| e in es && e.id == id;
      var e' := Image(es, es', e);
    }
  }

  lemma MirrorFlightOf(l: Link, l': Link, e: Entry, e': Entry)
    requires Mirrors(l.outbox.entries, l'.outbox.entries) && e in l.outbox.entries && Mirror(e, e')
    requires l'.outbox.tripIds == l.outbox.tripIds && l'.server == l.server && l'.samples == l.samples && l'.late == l.late
    requires StillInFlight(l, l', e, e') && FlightOf(l, e)
    ensures FlightOf(l', e')
  {
    MirrorPlace(l.outbox.entries, l'.outbox.entries, e, e');
  }

  /** When no command changes, neither does what the queue converges to. */
  lemma SameCommands(l: Link, l': Link, k: TripKey)
    requires Cmds(l'.outbox.entries) == Cmds(l.outbox.entries)
    requires l'.server == l.server && l'.log == l.log && l'.leaked == l.leaked && l'.samples == l.samples
    ensures Converges(l, k) ==> Converges(l', k)
  {
  }
}
