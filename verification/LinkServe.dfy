/** The server handles a request, one that somebody waits for or one that everybody has forgotten, and the invariant
    holds on: a request that is still due brings its trip nearer to what was recorded, any other leaves its trip to what
    the outbox alone can see, and no request touches another trip. */
module LinkServe {
  import opened Basics
  import opened Commands
  import opened TripServer
  import opened OutboxModel
  import opened CommandFold
  import opened TripViews
  import opened Link
  import opened LinkMirror
  import opened LinkSubmit
  import opened LinkGiveUp
  import opened LinkNetwork

  // ---- what a request leaves alone ---------------------------------------------------------------

  /** The server has changed for trip `k` alone, and so have the replies to its requests. */
  ghost predicate ServedFor(l: Link, l': Link, k: TripKey) {
    && l' == l.(server := l'.server, air := l'.air, late := l'.late)
    && ServerInv(l'.server, l.claims, l.samples, l'.late) && Untouched(l.server, l'.server, k, l'.late)
    && l.late <= l'.late <= l.late + {k}
    && l'.air.Keys == l.air.Keys
    && (forall id :: id in l.air ==> l'.air[id].request == l.air[id].request)
    && (forall id :: id in l.air && l.air[id].reply.Some? ==> l'.air[id].reply == l.air[id].reply)
    && (forall e :: e in l.outbox.entries && !e.command.Of(k) && e.id in l.air ==> l'.air[e.id] == l.air[e.id])
  }

  lemma OwnIdStays(s: Server, s': Server, id: int, k: TripKey, x: TripKey)
    requires Apart(s, s', k) && OwnId(s, id, x)
    ensures OwnId(s', id, x)
  {
  }

  lemma ReplyStays(s: Server, s': Server, c: Command, k: TripKey, x: TripKey, reply: Reply)
    requires Apart(s, s', k) && ReplyOf(s, c, x, reply)
    ensures ReplyOf(s', c, x, reply)
  {
    hide Apart, OwnId;
    if reply.Created? {
      OwnIdStays(s, s', reply.id, k, x);
    }
  }

  lemma BearsStays(s: Server, s': Server, id: int, k: TripKey, x: TripKey)
    requires Apart(s, s', k) && x != k && id < s.nextId
    ensures Bears(s', id, x) <==> Bears(s, id, x)
    ensures id !in s.trips ==> id !in s'.trips
  {
  }

  lemma RequestStays(s: Server, s': Server, r: Request, c: Command, k: TripKey, x: TripKey)
    requires Apart(s, s', k) && RequestOf(s, r, c, x)
    ensures RequestOf(s', r, c, x)
  {
    hide Apart, OwnId;
    match c
    case CreateTrip(_, _) =>
    case UpdateTrip(_, _) => OwnIdStays(s, s', r.id, k, x);
    case UpsertAttempt(_, _) => OwnIdStays(s, s', r.id, k, x);
    case UploadGps(_, _) => OwnIdStays(s, s', r.owner.value, k, x);
    case DeleteTrip(_) => OwnIdStays(s, s', r.id, k, x);
  }

  lemma OrphansStay(l: Link, l': Link, k: TripKey)
    requires OrphansInv(l) && ServedFor(l, l', k)
    ensures OrphansInv(l')
  {
    hide ServerInv, Apart, RequestOf;
    forall o | o in l'.orphans ensures OrphanOk(l', o) {
      assert OrphanOk(l, o);
      RequestStays(l.server, l'.server, o.request, o.command, k, o.command.TripKeyOf().value);
    }
  }

  lemma LooseStays(l: Link, l': Link, k: TripKey, x: TripKey)
    requires ServedFor(l, l', k) && Loose(l, x)
    ensures Loose(l', x)
  {
    hide ServerInv, Apart, OwnId, Ideal, CreateLeads, DeleteLasts, CreateAhead;
    if x in l.outbox.tripIds {
      OwnIdStays(l.server, l'.server, l.outbox.tripIds[x], k, x);
    }
  }

  lemma TripStays(l: Link, l': Link, k: TripKey, x: TripKey)
    requires ServedFor(l, l', k) && x != k && x !in l.late && TripInv(l, x)
    ensures TripInv(l', x)
  {
    hide ServerInv, Apart, TripOf, RowsOf, Ideal, IdealRows, CreateLeads, DeleteLasts;
    forall e | e in l.outbox.entries && IsCreateOf(e.command, x) ensures CreateOf(l', e, x) {
      assert CreateOf(l, e, x);
    }
    forall e | e in l.outbox.entries && e.command == DeleteTrip(x) ensures DeleteOf(l', e, x) {
      assert DeleteOf(l, e, x);
    }
  }

  lemma IdsStay(l: Link, l': Link, k: TripKey, x: TripKey)
    requires ServedFor(l, l', k) && x != k && x !in l.late && IdsAgree(l, x)
    ensures IdsAgree(l', x)
  {
    hide ServerInv, TripOf, RowsOf, CreateAhead;
    if x in l.outbox.tripIds {
      BearsStays(l.server, l'.server, l.outbox.tripIds[x], k, x);
      hide Apart;
    }
  }

  lemma OthersStay(l: Link, l': Link, k: TripKey, x: TripKey)
    requires ServedFor(l, l', k) && x != k && KeyInv(l, x)
    ensures KeyInv(l', x)
  {
    if x in l.late {
      LooseStays(l, l', k, x);
    } else if x !in l.abandoned {
      hide ServerInv, Apart, TripOf, RowsOf, Fold, Chain, IdsAgree, TripInv;
      IdsStay(l, l', k, x);
      TripStays(l, l', k, x);
    }
  }

  lemma AnswerStays(l: Link, l': Link, k: TripKey, c: Command, reply: Reply)
    requires ServerInv(l.server, l.claims, l.samples, l.late) && ServedFor(l, l', k) && Answered(l, c, reply)
    requires !c.Of(k) || k in l'.late
    ensures Answered(l', c, reply)
  {
    hide TripOf, RowsOf, WriteTrip, WriteRows;
    var x := c.TripKeyOf().value;
    if x in l.late {
      ReplyStays(l.server, l'.server, c, k, x, reply);
    } else if x in l'.late {
      assert ReplyOf(l.server, c, x, reply);
      ReplyStays(l.server, l'.server, c, k, x, reply);
    } else if c.CreateTrip? {
      BearsStays(l.server, l'.server, reply.id, k, x);
    }
  }

  /** The trip's own requests are on their way as before, if what was replied to them still holds. */
  lemma FlightStays(l: Link, l': Link, k: TripKey)
    requires ServerInv(l.server, l.claims, l.samples, l.late) && FlightInv(l) && ServedFor(l, l', k)
    requires forall e :: e in l.outbox.entries && e.command.Of(k) && e.inFlight
                         && e.id in l'.air && l'.air[e.id].reply.Some? ==>
               Answered(l', e.command, l'.air[e.id].reply.value)
    ensures FlightInv(l')
  {
    hide ServerInv, Untouched, Answered, Foremost, Resolve;
    forall e | e in l.outbox.entries ensures FlightOf(l', e) {
      assert FlightOf(l, e);
      if e.inFlight && !e.command.Of(k) && l.air[e.id].reply.Some? {
        AnswerStays(l, l', k, e.command, l.air[e.id].reply.value);
      }
    }
  }

  // ---- a request that is due ---------------------------------------------------------------------

  lemma HeadFits(l: Link, i: nat, k: TripKey)
    requires Inv(l) && Leading(l, i, k)
    ensures Fits(TripOf(l.server, k), l.outbox.entries[i].command, k)
  {
    hide Inv, TripOf, Fold;
    var cs := Cmds(l.outbox.entries);
    KeyOf(l, k);
    if cs[i].UploadGps? {
      EntryOf(l, l.outbox.entries[i]);
    } else {
      BeforeHead(l, i, k);
      FoldInert(TripWriter(k), TripOf(l.server, k), cs[..i]);
      assert Fitting(k)(Fold(TripWriter(k), TripOf(l.server, k), cs[..i]), cs[i]);
    }
  }

  /** What the server replies to a request that is due. */
  predicate Welcome(c: Command, reply: Reply) {
    match c
    case CreateTrip(_, _) => reply.Created?
    case DeleteTrip(_) => reply == Accepted || reply == Refused(404)
    case _ => reply == Accepted
  }

  /** What handling the request of entry `e` gives. */
  ghost predicate Handled(l: Link, s': Server, e: Entry, k: TripKey, reply: Reply) {
    && ServerInv(s', l.claims, l.samples, l.late)
    && Takes(l.server, s', e.command, k, Shared(l.samples), l.late)
    && Welcome(e.command, reply) && (reply.Created? ==> Bears(s', reply.id, k))
    && (k in l.outbox.tripIds && !e.command.DeleteTrip? ==> Bears(s', l.outbox.tripIds[k], k))
    && (e.command.DeleteTrip? ==> k in l.outbox.tripIds && l.outbox.tripIds[k] !in s'.trips)
  }

  lemma DeleteFindsNothing(s: Server, c: Command, shared: set<Time>, late: set<TripKey>)
    requires c.DeleteTrip? && TripOf(s, c.key).None?
    ensures Takes(s, s, c, c.key, shared, late)
  {
    NoTrip(s, c.key);
  }

  lemma FitsFresh(t: Option<TripRec>, c: Command, k: TripKey)
    requires c.CreateTrip? && c.key == k && Fits(t, c, k)
    ensures t.None? || t.value.leftHomeAt == k.leftHomeAt
  {
  }

  lemma ServeHandles(l: Link, e: Entry, k: TripKey, r: Request)
    requires ServerInv(l.server, l.claims, l.samples, l.late) && CommandOk(l.claims, l.samples, e.command)
    requires IdsAgree(l, k) && k !in l.late && e in l.outbox.entries && e.command.Of(k)
    requires Resolve(l.outbox.tripIds, e.command) == Some(r) && Fits(TripOf(l.server, k), e.command, k)
    ensures Handled(l, Serve(l.server, r).0, e, k, Serve(l.server, r).1)
  {
    hide ServerInv, Fits, Takes, TripOf, CommandOk, ServeUpdate, ServeUpsert, ServeUpload, ServeCreate;
    var s, claims, samples, late := l.server, l.claims, l.samples, l.late;
    var c := e.command;
    if c.CreateTrip? {
      FitsFresh(TripOf(s, k), c, k);
    }
    ServeApart(s, claims, samples, late, r, c, k);
    match c
    case CreateTrip(_, _) => CreateTakes(s, claims, samples, late, c);
    case UpdateTrip(_, _) => WriteTakes(s, claims, samples, late, r, c, k);
    case UpsertAttempt(_, _) => WriteTakes(s, claims, samples, late, r, c, k);
    case UploadGps(_, _) => UploadTakes(s, claims, samples, late, l.outbox.tripIds[k], c, k);
    case DeleteTrip(_) =>
      if Bears(s, l.outbox.tripIds[k], k) {
        DeleteTakes(s, claims, samples, late, l.outbox.tripIds[k], c);
      } else {
        DeleteFindsNothing(s, c, Shared(samples), late);
      }
  }

  lemma IsHandled(l: Link, i: nat, k: TripKey, r: Request)
    requires Inv(l) && Leading(l, i, k) && Resolve(l.outbox.tripIds, l.outbox.entries[i].command) == Some(r)
    ensures Handled(l, Serve(l.server, r).0, l.outbox.entries[i], k, Serve(l.server, r).1)
  {
    hide Inv, Fits, Takes, Handled, TripOf, Serve, Foremost;
    EntryOf(l, l.outbox.entries[i]);
    ServerOf(l);
    KeyOf(l, k);
    HeadFits(l, i, k);
    ServeHandles(l, l.outbox.entries[i], k, r);
  }

  /** A command that was taken changes nothing when repeated. */
  lemma LandedByTaking(l: Link, s': Server, e: Entry, k: TripKey, reply: Reply)
    requires e.command.Of(k) && Handled(l, s', e, k, reply)
    ensures Landed(s', e.command, reply, Shared(l.samples))
  {
    hide WriteTrip, WriteRows, TripOf, OwnRows, ServerInv, Untouched, Shared;
    WriteTripTwice(TripOf(l.server, k), e.command, k);
    WriteRowsTwice(OwnRows(l.server, k, Shared(l.samples)), e.command, k, Shared(l.samples));
  }

  /** The request of the leading entry has been handled; if it is a create, something tells that it was sent. */
  ghost predicate Due(l: Link, l': Link, i: nat, k: TripKey, reply: Reply) {
    && Leading(l, i, k) && ServedFor(l, l', k) && l'.late == l.late
    && var e := l.outbox.entries[i];
       && Resolve(l.outbox.tripIds, e.command).Some? && Handled(l, l'.server, e, k, reply)
       && (forall id :: id in l.air && id != e.id ==> l'.air[id] == l.air[id])
       && (e.id in l'.air && l'.air[e.id].reply.Some? ==> l'.air[e.id].reply == Some(reply))
       && (e.command.CreateTrip? ==>
             e.failures > 0 || k in l.interrupted || (e.id in l'.air && l'.air[e.id].reply.Some?))
  }

  lemma EarlierFits(l: Link, i: nat, k: TripKey, t: Option<TripRec>, j: nat)
    requires Inv(l) && Leading(l, i, k) && j < i && l.outbox.entries[i].command.LaneOf() == RecordLane(k)
    ensures Fits(t, l.outbox.entries[j].command, k)
  {
    hide Inv, TripLegal, WritePatch, WriteUpsert;
    EntriesSorted(l);
    EntryOf(l, l.outbox.entries[j]);
    assert l.outbox.entries[j].id < l.outbox.entries[i].id;
  }

  lemma ReplayTrips(l: Link, i: nat, k: TripKey)
    requires Inv(l) && Leading(l, i, k)
    ensures var cs := Cmds(l.outbox.entries);
            var t := TripOf(l.server, k);
            && Chain(TripWriter(k), Fitting(k), WriteTrip(t, cs[i], k), cs)
            && Fold(TripWriter(k), WriteTrip(t, cs[i], k), cs) == Fold(TripWriter(k), t, cs)
  {
    hide Inv, TripOf, Fold, Chain;
    var cs := Cmds(l.outbox.entries);
    var t := TripOf(l.server, k);
    KeyOf(l, k);
    if !cs[i].UploadGps? {
      BeforeHead(l, i, k);
      HeadFits(l, i, k);
      WriteTripTwice(t, cs[i], k);
      forall j | 0 <= j < i ensures Fitting(k)(WriteTrip(t, cs[i], k), cs[j]) {
        EarlierFits(l, i, k, WriteTrip(t, cs[i], k), j);
      }
      ReplayAt(t, cs, i, k);
    }
  }

  lemma ReplayAt(t: Option<TripRec>, cs: seq<Command>, i: nat, k: TripKey)
    requires i < |cs| && Chain(TripWriter(k), Fitting(k), t, cs)
    requires forall j :: 0 <= j < i ==> Inert(TripWriter(k), cs[j])
    requires WriteTrip(WriteTrip(t, cs[i], k), cs[i], k) == WriteTrip(t, cs[i], k)
    requires Fits(WriteTrip(t, cs[i], k), cs[i], k)
    requires forall j :: 0 <= j < i ==> Fitting(k)(WriteTrip(t, cs[i], k), cs[j])
    ensures Chain(TripWriter(k), Fitting(k), WriteTrip(t, cs[i], k), cs)
    ensures Fold(TripWriter(k), WriteTrip(t, cs[i], k), cs) == Fold(TripWriter(k), t, cs)
  {
    assert TripWriter(k)(t, cs[i]) == WriteTrip(t, cs[i], k);
    ChainReplayed(TripWriter(k), Fitting(k), t, cs, i);
    FoldReplayed(TripWriter(k), t, cs, i);
  }

  lemma ReplayRows(l: Link, i: nat, k: TripKey)
    requires Inv(l) && Leading(l, i, k)
    ensures var cs := Cmds(l.outbox.entries);
            var shared := Shared(l.samples);
            var rows := OwnRows(l.server, k, shared);
            Fold(RowWriter(k, shared), WriteRows(rows, cs[i], k, shared), cs) == Fold(RowWriter(k, shared), rows, cs)
  {
    hide Inv;
    var cs := Cmds(l.outbox.entries);
    if cs[i].UploadGps? || cs[i].DeleteTrip? {
      BeforeHead(l, i, k);
      var shared := Shared(l.samples);
      WriteRowsTwice(OwnRows(l.server, k, shared), cs[i], k, shared);
      FoldReplayed(RowWriter(k, shared), OwnRows(l.server, k, shared), cs, i);
    }
  }

  lemma DueConverges(l: Link, l': Link, i: nat, k: TripKey, reply: Reply)
    requires Inv(l) && Due(l, l', i, k, reply)
    ensures Converges(l', k)
  {
    hide Inv, TripOf, OwnRows, RowsOf, Fold, Chain, ServerInv, WriteTrip, WriteRows, Shared, Ideal, IdealRows, Untouched;
    KeyOf(l, k);
    ReplayTrips(l, i, k);
    ReplayRows(l, i, k);
  }

  lemma ServedShape(l: Link, l': Link, k: TripKey)
    requires ServedFor(l, l', k)
    ensures l'.outbox == l.outbox && l'.leaked == l.leaked && l'.abandoned == l.abandoned && l'.log == l.log
    ensures l.server.nextId <= l'.server.nextId
  {
  }

  lemma DueIds(l: Link, l': Link, i: nat, k: TripKey, reply: Reply)
    requires Inv(l) && Due(l, l', i, k, reply)
    ensures IdsAgree(l', k)
  {
    hide Inv, Takes, ServerInv, IsHead, ServedFor, IdsAgree, Converges, TripInv;
    KeyOf(l, k);
    ServedShape(l, l', k);
    if l.outbox.entries[i].command.DeleteTrip? {
      DeleteDueIds(l, l', i, k, reply);
    } else {
      OtherDueIds(l, l', l.outbox.entries[i], k);
    }
  }

  lemma OtherDueIds(l: Link, l': Link, e: Entry, k: TripKey)
    requires IdsAgree(l, k) && l'.outbox == l.outbox && l'.leaked == l.leaked && l.server.nextId <= l'.server.nextId
    requires e in l.outbox.entries && e.command.Of(k) && Resolve(l.outbox.tripIds, e.command).Some?
    requires k in l.outbox.tripIds ==> Bears(l'.server, l.outbox.tripIds[k], k)
    ensures IdsAgree(l', k)
  {
    hide TripOf;
    if k !in l.outbox.tripIds {
      assert IsCreateOf(e.command, k);
    }
  }

  lemma DeleteDueIds(l: Link, l': Link, i: nat, k: TripKey, reply: Reply)
    requires Inv(l) && Due(l, l', i, k, reply) && l.outbox.entries[i].command.DeleteTrip? && IdsAgree(l, k)
    ensures IdsAgree(l', k)
  {
    hide Inv, RowsOf, OwnRows, WriteRows, ServerInv, CreateAhead, IsHead, ServedFor;
    var e := l.outbox.entries[i];
    EntriesSorted(l);
    ServedShape(l, l', k);
    forall o | o in l.outbox.entries && o.command.Of(k) ensures o == e {
      if o.id == e.id {
        SortedIds(l.outbox.entries, i, o);
      }
    }
    NoTrip(l'.server, k);
    hide TripOf;
  }

  lemma DueTrip(l: Link, l': Link, i: nat, k: TripKey, reply: Reply)
    requires Inv(l) && Due(l, l', i, k, reply)
    ensures TripInv(l', k)
  {
    hide Inv, TripOf, RowsOf, OwnRows, WriteRows, ServerInv, IsHead, Ideal, IdealRows, Untouched;
    var e := l.outbox.entries[i];
    EntryOf(l, e);
    KeyOf(l, k);
    forall o | o in l.outbox.entries && IsCreateOf(o.command, k) ensures CreateOf(l', o, k) {
      assert CreateOf(l, o, k);
      CreateBlocks(l, e, o, k);
    }
    forall o | o in l.outbox.entries && o.command == DeleteTrip(k) ensures DeleteOf(l', o, k) {
      assert DeleteOf(l, o, k);
    }
  }

  /** Of two entries of a trip that come first of their lanes and know its id, one is an upload and the other is not. */
  lemma OtherLane(l: Link, i: nat, k: TripKey, o: Entry)
    requires Inv(l) && Leading(l, i, k) && Resolve(l.outbox.tripIds, l.outbox.entries[i].command).Some?
    requires o in l.outbox.entries && o.command.Of(k) && o.id != l.outbox.entries[i].id
    requires Foremost(l.outbox.entries, o) && Resolve(l.outbox.tripIds, o.command).Some?
    ensures var e := l.outbox.entries[i].command;
            && !e.CreateTrip? && !e.DeleteTrip? && !o.command.CreateTrip? && !o.command.DeleteTrip?
            && (e.UploadGps? <==> !o.command.UploadGps?)
  {
    hide Inv;
    var e := l.outbox.entries[i];
    if e.command.CreateTrip? {
      CreateBlocks(l, o, e, k);
    }
    if o.command.CreateTrip? {
      CreateBlocks(l, e, o, k);
    }
  }

  lemma DueAnswers(l: Link, l': Link, i: nat, k: TripKey, reply: Reply, o: Entry)
    requires Inv(l) && Due(l, l', i, k, reply)
    requires o in l.outbox.entries && o.command.Of(k) && o.inFlight && o.id in l'.air && l'.air[o.id].reply.Some?
    ensures Answered(l', o.command, l'.air[o.id].reply.value)
  {
    hide Inv, TripOf, RowsOf, ServerInv, Foremost, Untouched, Resolve;
    var e := l.outbox.entries[i];
    EntriesSorted(l);
    if o.id == e.id {
      SortedIds(l.outbox.entries, i, o);
      LandedByTaking(l, l'.server, e, k, reply);
    } else {
      EntryOf(l, o);
      OtherLane(l, i, k, o);
    }
  }

  lemma DueKeepsInv(l: Link, l': Link, i: nat, k: TripKey, reply: Reply)
    requires Inv(l) && Due(l, l', i, k, reply)
    ensures Inv(l')
  {
    hide KeyInv, FlightInv, OrphansInv, ServerInv, Untouched, Handled, Foremost, Resolve;
    forall o | o in l.outbox.entries && o.command.Of(k) && o.inFlight && o.id in l'.air && l'.air[o.id].reply.Some?
      ensures Answered(l', o.command, l'.air[o.id].reply.value)
    {
      EntryOf(l, o);
      DueAnswers(l, l', i, k, reply, o);
    }
    FlightStays(l, l', k);
    OrphansStay(l, l', k);
    forall x ensures KeyInv(l', x) {
      if x == k {
        DueKey(l, l', i, k, reply);
      } else {
        OthersStay(l, l', k, x);
      }
    }
  }

  lemma DueKey(l: Link, l': Link, i: nat, k: TripKey, reply: Reply)
    requires Inv(l) && Due(l, l', i, k, reply)
    ensures KeyInv(l', k)
  {
    hide Inv, Converges, IdsAgree, TripInv;
    DueConverges(l, l', i, k, reply);
    DueIds(l, l', i, k, reply);
    DueTrip(l, l', i, k, reply);
  }

  // ---- a request that is no longer due -----------------------------------------------------------

  /** What the outbox sees of any trip. */
  lemma EveryTripIsLoose(l: Link, k: TripKey)
    requires Inv(l) && Known(l.claims, k)
    ensures Loose(l, k)
  {
    hide ServerInv, FlightInv, OrphansInv, QueueInv, Converges, TripOf, RowsOf, Ideal, CreateAhead;
    assert KeyInv(l, k);
    if k !in l.late {
      forall e | e in l.outbox.entries && IsCreateOf(e.command, k) ensures CreateLeads(l.outbox.entries, e, k) {
        CreateIsFirst(l, e, k);
      }
      forall e | e in l.outbox.entries && e.command == DeleteTrip(k)
        ensures Ideal(l.log, k).None? && DeleteLasts(l.outbox.entries, e, k)
      {
        DeleteIsLast(l, e, k);
      }
      if Ideal(l.log, k).Some? && k !in l.outbox.tripIds && k !in l.abandoned {
        OpenHasCreate(l, k);
      }
    }
  }

  lemma LateIsLoose(l: Link, k: TripKey)
    requires k in l.late && Loose(l, k)
    ensures KeyInv(l, k)
  {
  }

  lemma LateKeepsInv(l: Link, l': Link, k: TripKey)
    requires Inv(l) && ServedFor(l, l', k) && Known(l.claims, k) && k in l'.late
    requires forall e :: e in l.outbox.entries && e.command.Of(k)
                         && e.id in l.air && l'.air[e.id].reply != l.air[e.id].reply ==>
               l'.air[e.id].reply.Some? && ReplyOf(l'.server, e.command, k, l'.air[e.id].reply.value)
    ensures Inv(l')
  {
    hide KeyInv, FlightInv, OrphansInv, ServerInv, Untouched, Foremost, Resolve, ReplyOf, Loose;
    EveryTripIsLoose(l, k);
    LooseStays(l, l', k, k);
    forall e | e in l.outbox.entries && e.command.Of(k) && e.inFlight && e.id in l'.air && l'.air[e.id].reply.Some?
      ensures Answered(l', e.command, l'.air[e.id].reply.value)
    {
      EntryOf(l, e);
      if l'.air[e.id].reply == l.air[e.id].reply {
        AnswerStays(l, l', k, e.command, l.air[e.id].reply.value);
      }
    }
    FlightStays(l, l', k);
    OrphansStay(l, l', k);
    LateIsLoose(l', k);
    forall x ensures KeyInv(l', x) {
      if x != k {
        OthersStay(l, l', k, x);
      }
    }
  }

  /** A request of a trip can be served: a create meets a record that has not moved, or no record the outbox relies on. */
  lemma RequestServes(l: Link, l': Link, r: Request, c: Command, k: TripKey)
    requires ServerInv(l.server, l.claims, l.samples, l.late) && CommandOk(l.claims, l.samples, c)
    requires RequestOf(l.server, r, c, k) && l.late <= l'.late <= l.late + {k} && k in l'.late
    requires l' == l.(server := Serve(l.server, r).0, air := l'.air, late := l'.late)
    requires l'.air.Keys == l.air.Keys
    requires forall id :: id in l.air ==> l'.air[id].request == l.air[id].request
    requires forall id :: id in l.air && l.air[id].reply.Some? ==> l'.air[id].reply == l.air[id].reply
    requires forall e :: e in l.outbox.entries && !e.command.Of(k) && e.id in l.air ==> l'.air[e.id] == l.air[e.id]
    ensures ServedFor(l, l', k) && ReplyOf(l'.server, c, k, Serve(l.server, r).1)
  {
    hide Serve, Untouched, RequestOf, CommandOk, ReplyOf;
    ServeApart(l.server, l.claims, l.samples, l'.late, r, c, k);
  }

  // ---- a request that somebody waits for ---------------------------------------------------------

  /** The request is of a trip of which another has landed late. */
  predicate OfLateTrip(l: Link, id: nat) {
    exists e :: e in l.outbox.entries && e.id == id && e.command.TripKeyOf().Some? && e.command.TripKeyOf().value in l.late
  }

  lemma ArriveDue(l: Link, id: nat, i: nat, k: TripKey)
    requires Inv(l) && MayArrive(l, id) && i < |l.outbox.entries| && l.outbox.entries[i].id == id
    requires l.outbox.entries[i].inFlight && l.outbox.entries[i].command.Of(k) && k !in l.late
    ensures Due(l, Arrive(l, id), i, k, Serve(l.server, l.air[id].request).1)
  {
    hide Inv, ServerInv, Serve, Untouched, Foremost, Resolve, Shared, WriteTrip, WriteRows, TripOf, RowsOf;
    var e := l.outbox.entries[i];
    EntriesSorted(l);
    EntryOf(l, e);
    TriedIsKept(l, e, k);
    IsHandled(l, i, k, l.air[id].request);
    forall o | o in l.outbox.entries && o.id == id ensures o == e {
      SortedIds(l.outbox.entries, i, o);
    }
  }

  lemma ArriveLate(l: Link, id: nat, i: nat, k: TripKey)
    requires Inv(l) && MayArrive(l, id) && i < |l.outbox.entries| && l.outbox.entries[i].id == id
    requires l.outbox.entries[i].inFlight && l.outbox.entries[i].command.Of(k) && k in l.late
    ensures Inv(Arrive(l, id))
  {
    hide Inv, ServerInv, Serve, Foremost, Resolve, ReplyOf;
    var e := l.outbox.entries[i];
    EntriesSorted(l);
    EntryOf(l, e);
    ServerOf(l);
    RequestIsOwn(l, e, l.air[id].request);
    forall o | o in l.outbox.entries && o.id == id ensures o == e {
      SortedIds(l.outbox.entries, i, o);
    }
    RequestServes(l, Arrive(l, id), l.air[id].request, e.command, k);
    LateKeepsInv(l, Arrive(l, id), k);
  }

  /** Every request the outbox has on its way is accepted, or is a delete of a trip that is already gone, unless a request
      of its trip has landed late. */
  lemma ArriveKeepsInv(l: Link, id: nat)
    requires Inv(l) && MayArrive(l, id)
    ensures Inv(Arrive(l, id))
    ensures var reply := Serve(l.server, l.air[id].request).1;
            reply.Refused? ==> (reply.status == 404 && l.air[id].request.DeleteReq?) || OfLateTrip(l, id)
  {
    hide Inv, Serve, Due, FlightOf;
    var i := InTheAir(l, id);
    var e := l.outbox.entries[i];
    EntryOf(l, e);
    var k := e.command.TripKeyOf().value;
    if k in l.late {
      ArriveLate(l, id, i, k);
    } else {
      ArriveDue(l, id, i, k);
      DueKeepsInv(l, Arrive(l, id), i, k, Serve(l.server, l.air[id].request).1);
      DueIsWelcome(l, id, i, k);
    }
  }

  lemma DueIsWelcome(l: Link, id: nat, i: nat, k: TripKey)
    requires MayArrive(l, id) && i < |l.outbox.entries| && l.outbox.entries[i].id == id && FlightOf(l, l.outbox.entries[i])
    requires Due(l, Arrive(l, id), i, k, Serve(l.server, l.air[id].request).1)
    ensures var reply := Serve(l.server, l.air[id].request).1;
            reply.Refused? ==> reply.status == 404 && l.air[id].request.DeleteReq?
  {
    hide ServerInv, Serve, Untouched, Takes, ServedFor, Foremost;
  }

  // ---- a request that everybody has forgotten ----------------------------------------------------

  lemma LandTimely(l: Link, o: Orphan, i: nat, k: TripKey)
    requires Inv(l) && o in l.orphans && i < |l.outbox.entries| && l.outbox.entries[i].command.Of(k) && k !in l.late
    requires StillDue(l, o, l.outbox.entries[i])
    ensures LandsLate(l, o) == {} && Due(l, Land(l, o), i, k, Serve(l.server, o.request).1)
  {
    hide Inv, ServerInv, Serve, Untouched, Foremost, Resolve, Shared, WriteTrip, WriteRows, TripOf, RowsOf;
    var e := l.outbox.entries[i];
    EntriesSorted(l);
    OrphanIsOk(l, o);
    SentIsKept(l, e, k);
    IsHandled(l, i, k, o.request);
    assert Land(l, o).late == l.late;
  }

  /** Nothing of an abandoned trip can be sent. */
  lemma SentIsKept(l: Link, e: Entry, k: TripKey)
    requires Inv(l) && e in l.outbox.entries && e.command.Of(k) && Resolve(l.outbox.tripIds, e.command).Some?
    ensures k !in l.abandoned
  {
    hide Inv;
    if k in l.abandoned {
      AbandonedHasNoId(l, k);
    }
  }

  lemma LandLate(l: Link, o: Orphan, k: TripKey)
    requires Inv(l) && o in l.orphans && o.command.Of(k) && k in Land(l, o).late
    ensures Inv(Land(l, o))
  {
    hide Inv, ServerInv, Serve, RequestOf, OrphanOk, Timely;
    OrphanIsOk(l, o);
    OrphanRequest(l, o);
    ServerOf(l);
    RequestServes(l, Land(l, o), o.request, o.command, k);
    LateKeepsInv(l, Land(l, o), k);
  }

  lemma OrphanRequest(l: Link, o: Orphan)
    requires OrphanOk(l, o)
    ensures o.command.TripKeyOf().Some? && RequestOf(l.server, o.request, o.command, o.command.TripKeyOf().value)
  {
  }

  lemma LandKeepsInv(l: Link, o: Orphan)
    requires Inv(l) && o in l.orphans
    ensures Inv(Land(l, o))
  {
    hide Inv, Serve, Due, OrphanOk, StillDue;
    OrphanIsOk(l, o);
    var k := o.command.TripKeyOf().value;
    if k in Land(l, o).late {
      LandLate(l, o, k);
    } else if Timely(l, o) {
      var e :| e in l.outbox.entries && StillDue(l, o, e);
      var i :| 0 <= i < |l.outbox.entries| && l.outbox.entries[i] == e;
      DueIsOwn(l, o, e);
      LandTimely(l, o, i, k);
      DueKeepsInv(l, Land(l, o), i, k, Serve(l.server, o.request).1);
    } else {
      assert Land(l, o) == l;
    }
  }

  lemma DueIsOwn(l: Link, o: Orphan, e: Entry)
    requires StillDue(l, o, e)
    ensures e.command == o.command
  {
  }
}
