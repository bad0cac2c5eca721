/** What a request that everybody has forgotten can still do when it reaches the server after all: to a trip that is done,
    and to one that is gone. */
module LinkLate {
  import opened Basics
  import opened Commands
  import opened TripServer
  import opened TripViews
  import opened OutboxModel
  import opened CommandFold
  import opened Link
  import opened LinkGiveUp
  import opened LinkNetwork
  import opened LinkServe
  import opened LinkCancel

  // ---- a trip that is gone -----------------------------------------------------------------------

  /** The row that the request names is gone. */
  predicate TargetGone(s: Server, r: Request) {
    match r
    case CreateReq(_, _, _) => true
    case UpdateReq(id, _) => id !in s.trips
    case UpsertReq(id, _) => id !in s.trips
    case UploadReq(owner, _) => owner.Some? && owner.value !in s.trips
    case DeleteReq(id) => id !in s.trips
  }

  /** No forgotten request of the trip but its create can do anything. */
  predicate Spent(l: Link, k: TripKey) {
    forall o :: o in l.orphans && o.command.Of(k) ==> TargetGone(l.server, o.request)
  }

  /** The server has the trip as its create made it, if `back`, or not at all. */
  ghost predicate BareOrGone(s: Server, k: TripKey, back: bool) {
    && (back <==> exists id :: Bears(s, id, k))
    && (forall id :: Bears(s, id, k) ==> s.trips[id] == FreshTrip(k, KstDate(k.leftHomeAt)))
    && RowsOf(s, k) == map[]
  }

  ghost predicate Over(l: Link, k: TripKey, back: bool) {
    Finished(l, k) && Spent(l, k) && BareOrGone(l.server, k, back)
  }

  lemma GoneIsOver(l: Link, k: TripKey)
    requires Inv(l) && Finished(l, k) && TripOf(l.server, k).None?
    ensures Over(l, k, false)
  {
    hide KeyInv, ServerInv, FlightInv, QueueInv;
    NoTrip(l.server, k);
    forall o | o in l.orphans && o.command.Of(k) ensures TargetGone(l.server, o.request) {
      assert OrphanOk(l, o);
    }
  }

  lemma OverMeans(s: Server, k: TripKey, back: bool)
    requires BareOrGone(s, k, back)
    ensures TripOf(s, k) == if back then Some(FreshTrip(k, KstDate(k.leftHomeAt))) else None
    ensures RowsOf(s, k) == map[]
  {
  }

  /** A request of another trip. */
  lemma OtherKeepsOver(l: Link, l': Link, x: TripKey, k: TripKey, back: bool)
    requires ServedFor(l, l', x) && x != k && Inv(l) && Over(l, k, back)
    ensures Over(l', k, back)
  {
    hide ServerInv, KeyInv, FlightInv, QueueInv, RowsOf, TripOf, CommandOk;
    forall id ensures Bears(l'.server, id, k) <==> Bears(l.server, id, k) {}
    forall o | o in l'.orphans && o.command.Of(k) ensures TargetGone(l'.server, o.request) {
      assert OrphanOk(l, o);
    }
  }

  /** What is queued and forgotten of the trip shrinks, and the server stays. */
  lemma SameOver(l: Link, l': Link, k: TripKey, back: bool)
    requires Over(l, k, back) && l'.server == l.server && Finished(l', k)
    requires forall o :: o in l'.orphans && o.command.Of(k) ==> o in l.orphans
    ensures Over(l', k, back)
  {
  }

  lemma StillOthers(l: Link, e: Entry, k: TripKey, back: bool)
    requires Over(l, k, back) && e in l.outbox.entries
    ensures !e.command.Of(k)
  {
  }

  lemma ArriveKeepsOver(l: Link, id: nat, k: TripKey, back: bool)
    requires Inv(l) && MayArrive(l, id) && Over(l, k, back)
    ensures Over(Arrive(l, id), k, back)
  {
    hide Inv, Serve, Over, FlightOf, ServedFor;
    var i := InTheAir(l, id);
    var e := l.outbox.entries[i];
    EntryOf(l, e);
    var x := e.command.TripKeyOf().value;
    StillOthers(l, e, k, back);
    ArriveServes(l, id, i, x);
    OtherKeepsOver(l, Arrive(l, id).(late := l.late + {x}), x, k, back);
    OverIsFinished(l, k, back);
    SameOver(Arrive(l, id).(late := l.late + {x}), Arrive(l, id), k, back);
  }

  lemma OverIsFinished(l: Link, k: TripKey, back: bool)
    requires Over(l, k, back)
    ensures Finished(l, k)
  {
  }

  lemma ArriveServes(l: Link, id: nat, i: nat, x: TripKey)
    requires Inv(l) && MayArrive(l, id) && i < |l.outbox.entries| && l.outbox.entries[i].id == id
    requires FlightOf(l, l.outbox.entries[i]) && l.outbox.entries[i].inFlight && l.outbox.entries[i].command.Of(x)
    ensures ServedFor(l, Arrive(l, id).(late := l.late + {x}), x)
  {
    hide Inv, ServerInv, Serve, Foremost, Resolve, ReplyOf, Answered, ServedFor;
    var e := l.outbox.entries[i];
    EntriesSorted(l);
    EntryOf(l, e);
    ServerOf(l);
    RequestIsOwn(l, e, l.air[id].request);
    forall o | o in l.outbox.entries && o.id == id ensures o == e {
      SortedIds(l.outbox.entries, i, o);
    }
    RequestServes(l, Arrive(l, id).(late := l.late + {x}), l.air[id].request, e.command, x);
  }

  /** A forgotten request: of another trip, one that names a row that is gone, or the create. */
  lemma LandKeepsOver(l: Link, o: Orphan, k: TripKey, back: bool)
    requires Inv(l) && o in l.orphans && Over(l, k, back)
    ensures Over(Land(l, o), k, back || IsCreateOf(o.command, k))
  {
    hide Inv, Serve, Over, ServedFor, OrphanOk, LandsLate;
    OrphanIsOk(l, o);
    OrphanRequest(l, o);
    var x := o.command.TripKeyOf().value;
    if x != k {
      LandServes(l, o, x);
      OtherKeepsOver(l, Land(l, o).(late := l.late + {x}), x, k, back);
      OverIsFinished(l, k, back);
      SameOver(Land(l, o).(late := l.late + {x}), Land(l, o), k, back);
    } else if o.command.CreateTrip? {
      CreateComesBack(l, o, k, back);
    } else {
      SpentDoesNothing(l, o, k, back);
      OverIsFinished(l, k, back);
      SameOver(l, Land(l, o), k, back);
    }
  }

  lemma LandServes(l: Link, o: Orphan, x: TripKey)
    requires Inv(l) && o in l.orphans && o.command.Of(x)
    ensures ServedFor(l, Land(l, o).(late := l.late + {x}), x)
  {
    hide Inv, ServerInv, Serve, RequestOf, OrphanOk, ServedFor, LandsLate;
    OrphanIsOk(l, o);
    OrphanRequest(l, o);
    ServerOf(l);
    RequestServes(l, Land(l, o).(late := l.late + {x}), o.request, o.command, x);
  }

  lemma SpentDoesNothing(l: Link, o: Orphan, k: TripKey, back: bool)
    requires Over(l, k, back) && o in l.orphans && o.command.Of(k) && !o.command.CreateTrip?
    requires RequestOf(l.server, o.request, o.command, k)
    ensures Serve(l.server, o.request).0 == l.server
  {
    hide RowsOf, BatchValid;
    assert TargetGone(l.server, o.request);
  }

  lemma CreateOnGone(s: Server, s': Server, claims: Claims, samples: Samples, late: set<TripKey>, c: Command, k: TripKey,
                     back: bool)
    requires ServerInv(s, claims, samples, late) && CommandOk(claims, samples, c) && IsCreateOf(c, k)
    requires BareOrGone(s, k, back)
    requires s' == (if exists id :: Holds(s, id, k.routeId, k.leftHomeAt) then s
                    else s.(trips := s.trips[s.nextId := FreshTrip(k, c.tripDate)], nextId := s.nextId + 1))
    ensures BareOrGone(s', k, true)
  {
    hide TripLegal;
    assert forall id :: Bears(s, id, k) ==> Holds(s, id, k.routeId, k.leftHomeAt);
    if exists id :: Holds(s, id, k.routeId, k.leftHomeAt) {
      var id :| Holds(s, id, k.routeId, k.leftHomeAt);
      assert Claimed(claims, k.routeId, k.leftHomeAt, s.trips[id].born);
      assert Bears(s, id, k);
    } else {
      assert Bears(s', s.nextId, k);
      forall t ensures RowOf(s', t, k) <==> RowOf(s, t, k) {}
    }
  }

  lemma LateServer(l: Link, k: TripKey)
    requires ServerInv(l.server, l.claims, l.samples, l.late)
    ensures ServerInv(l.server, l.claims, l.samples, l.late + {k})
  {
    hide TripLegal, Claimed, Known;
  }

  lemma CreateComesBack(l: Link, o: Orphan, k: TripKey, back: bool)
    requires Inv(l) && o in l.orphans && IsCreateOf(o.command, k) && Over(l, k, back)
    ensures Over(Land(l, o), k, true)
  {
    hide Inv, OrphanOk, LandsLate, TripOf, RowsOf, ServerInv, CommandOk, BareOrGone, ServeCreate, Apart, GpsApart;
    OrphanIsOk(l, o);
    OrphanRequest(l, o);
    ServerOf(l);
    LateServer(l, k);
    CreateApart(l.server, l.claims, l.samples, l.late + {k}, o.command, k);
    CreateOnGone(l.server, Land(l, o).server, l.claims, l.samples, l.late, o.command, k, back);
    forall x | x in l.orphans && x.command.Of(k) ensures TargetGone(Land(l, o).server, x.request) {
      OrphanIsOk(l, x);
      OrphanRequest(l, x);
      StillGone(l.server, Land(l, o).server, x.request, x.command, k);
    }
  }

  lemma StillGone(s: Server, s': Server, r: Request, c: Command, k: TripKey)
    requires RequestOf(s, r, c, k) && TargetGone(s, r) && Apart(s, s', k)
    ensures TargetGone(s', r)
  {
  }

  // ---- the outbox's own steps --------------------------------------------------------------------

  lemma SendKeepsOver(l: Link, now: Time, k: TripKey, back: bool)
    requires Over(l, k, back)
    ensures Over(Send(l, now), k, back)
  {
    hide Spent, BareOrGone, Resolve, FirstReady;
    SameSpent(l, Send(l, now), k);
  }

  lemma SameSpent(l: Link, l': Link, k: TripKey)
    requires l'.server == l.server && Spent(l, k)
    requires forall o :: o in l'.orphans && o.command.Of(k) ==> o in l.orphans
    ensures Spent(l', k)
  {
  }

  lemma RestartKeepsOver(l: Link, k: TripKey, back: bool)
    requires Over(l, k, back)
    ensures Over(Restart(l), k, back)
  {
    hide Spent, BareOrGone;
    SameSpent(l, Restart(l), k);
  }

  lemma ExpediteKeepsOver(l: Link, k: TripKey, back: bool)
    requires Over(l, k, back)
    ensures Over(l.(outbox := Expedite(l.outbox)), k, back)
  {
    hide Spent, BareOrGone;
    SameSpent(l, l.(outbox := Expedite(l.outbox)), k);
  }

  lemma AnswerKeepsOver(l: Link, policy: RetryPolicy, id: nat, o: Outcome, now: Time, k: TripKey, back: bool)
    requires Over(l, k, back)
    ensures Over(Answer(l, policy, id, o, now), k, back)
  {
    hide Spent, BareOrGone, GivesUp, Complete;
    CompleteFinished(policy, l, id, o, now, k);
    SameSpent(l, Answer(l, policy, id, o, now), k);
  }

  predicate NoneOf(es: seq<Entry>, k: TripKey) {
    forall e :: e in es ==> !e.command.Of(k)
  }

  lemma RemovedNone(es: seq<Entry>, i: nat, x: TripKey, k: TripKey)
    requires NoneOf(es, k) && i < |es|
    ensures NoneOf(RemoveAt(es, i), k) && NoneOf(Without(RemoveAt(es, i), x), k)
  {
    WithoutMembers(RemoveAt(es, i), x);
  }

  lemma ChangedNone(es: seq<Entry>, i: nat, e: Entry, k: TripKey)
    requires NoneOf(es, k) && i < |es| && e.command == es[i].command
    ensures NoneOf(es[i := e], k)
  {
  }

  lemma FailFinished(policy: RetryPolicy, st: OutboxState, i: nat, error: ApiError, now: Time, k: TripKey)
    requires NoneOf(st.entries, k) && i < |st.entries|
    ensures NoneOf(Fail(policy, st, i, error, now).entries, k)
  {
    hide NoneOf, RemoveAt, Without, Orphans, RetryPolicy.Delay;
    var e := st.entries[i];
    RemovedNone(st.entries, i, if e.command.CreateTrip? then e.command.key else k, k);
    ChangedNone(st.entries, i, e.(inFlight := false), k);
    ChangedNone(st.entries, i, e.(inFlight := false, failures := e.failures + 1,
                                  notBefore := Some(now + policy.Delay(e.failures + 1))), k);
  }

  lemma CompleteFinished(policy: RetryPolicy, l: Link, id: nat, o: Outcome, now: Time, k: TripKey)
    requires Finished(l, k)
    ensures forall e :: e in Complete(policy, l.outbox, id, o, now).entries ==> !e.command.Of(k)
  {
    hide Fail, RemoveAt;
    var i := IndexOf(l.outbox.entries, id);
    if i < |l.outbox.entries| {
      RemovedNone(l.outbox.entries, i, k, k);
      if o.Failed? {
        FailFinished(policy, l.outbox, i, o.error, now, k);
      }
    }
  }

  // ---- recording for other trips -----------------------------------------------------------------

  lemma SubmitKeepsOver(l: Link, c: Command, now: Time, k: TripKey, back: bool)
    requires Over(l, k, back) && !c.Of(k)
    ensures Over(Submit(l, c, now), k, back)
  {
    hide Spent, BareOrGone, Enqueue, AddClaims, AddSamples;
    EnqueueOther(l.outbox, c, now, k);
    SameSpent(l, Submit(l, c, now), k);
  }

  lemma EnqueueOther(st: OutboxState, c: Command, now: Time, k: TripKey)
    requires !c.Of(k) && forall e :: e in st.entries ==> !e.command.Of(k)
    ensures forall e :: e in Enqueue(st, c, now).entries ==> !e.command.Of(k)
  {
    hide MergeTarget, Merged;
    if c.UploadGps? {
      AppendOther(st, c.owner, c.points, now, k);
    }
  }

  lemma {:induction false} AppendOther(st: OutboxState, owner: Option<TripKey>, points: seq<GpsPoint>, now: Time, k: TripKey)
    requires owner != Some(k) && forall e :: e in st.entries ==> !e.command.Of(k)
    ensures forall e :: e in AppendAll(st, owner, points, now).entries ==> !e.command.Of(k)
    decreases |points|
  {
    if points != [] {
      var n := if |points| < MAX_GPS_POINTS then |points| else MAX_GPS_POINTS;
      AppendOther(Append(st, UploadGps(owner, points[..n]), now), owner, points[n..], now, k);
    }
  }

  lemma CancelKeepsOver(l: Link, x: TripKey, now: Time, k: TripKey, back: bool)
    requires Over(l, k, back) && x != k
    ensures Over(Cancel(l, x, now), k, back)
  {
    hide Spent, BareOrGone, Leaky, Remaining;
    RemainingMembers(l.outbox.entries, x, CreateMayHaveLanded(l.outbox.entries, x));
    SameSpent(l, Cancel(l, x, now), k);
  }

  // ---- a trip that is done -----------------------------------------------------------------------

  /** A write to the record that lands after everything of its trip was sent leaves the record right exactly when its row
      is gone, the record says already what it writes, or the server refuses it. */
  lemma LateWriteHarmsExactlyWhen(l: Link, o: Orphan, k: TripKey)
    requires Inv(l) && o in l.orphans && k !in l.late && TripOf(l.server, k) == Ideal(l.log, k)
    requires o.command.TripKeyOf() == Some(k) && (o.command.UpdateTrip? || o.command.UpsertAttempt?)
    ensures TripOf(Land(l, o).server, k) == Ideal(l.log, k) <==>
              || TargetGone(l.server, o.request)
              || WriteTrip(Ideal(l.log, k), o.command, k) == Ideal(l.log, k)
              || !Fits(Ideal(l.log, k), o.command, k)
  {
    hide Inv, OrphanOk, LandsLate, TripOf, Ideal, RequestOf, ServerInv, CommandOk, Serve, WriteTrip, Fits, Untouched;
    OrphanIsOk(l, o);
    OrphanRequest(l, o);
    ServerOf(l);
    var s, r := l.server, o.request;
    WritesOwn(s, r, o.command, k);
    if r.id in s.trips {
      TripOfId(s, l.claims, l.samples, l.late, r.id);
      if Fits(TripOf(s, k), o.command, k) {
        WriteTakes(s, l.claims, l.samples, l.late, r, o.command, k);
      } else {
        MisfitIsRefused(s, r, o.command, k);
      }
    }
  }

  lemma WritesOwn(s: Server, r: Request, c: Command, k: TripKey)
    requires RequestOf(s, r, c, k) && (c.UpdateTrip? || c.UpsertAttempt?)
    ensures (r.UpdateReq? || r.UpsertReq?) && (r.id in s.trips ==> s.trips[r.id].born == k)
    ensures r.id !in s.trips ==> Serve(s, r).0 == s
  {
  }

  lemma MisfitIsRefused(s: Server, r: Request, c: Command, k: TripKey)
    requires RequestOf(s, r, c, k) && (c.UpdateTrip? || c.UpsertAttempt?) && r.id in s.trips
    requires TripLegal(s.trips[r.id]) && !Fits(Some(s.trips[r.id]), c, k)
    ensures Serve(s, r).0 == s
  {
    hide TripLegal, WritePatch, WriteUpsert, ServeUpdate, ServeUpsert;
    WriteRefused(s, r.id, c, k);
    if c.UpdateTrip? && ServeUpdate(s, r.id, c.patch).1.Accepted? {
      PatchTaken(s, r.id, c.patch);
    }
    if c.UpsertAttempt? && ServeUpsert(s, r.id, c.upsert).1.Accepted? {
      UpsertTaken(s, r.id, c.upsert);
      UpsertNumbers(s, r.id, c.upsert);
    }
  }

  lemma UpsertNumbers(s: Server, id: int, u: Upsert)
    requires ServeUpsert(s, id, u).1.Accepted?
    ensures 1 <= u.Seq() <= MAX_ATTEMPT_SEQ && id in s.trips && Numbered(u, |s.trips[id].On(u.legId)|)
  {
  }

  /** A create that lands again is absorbed exactly when the server has the trip with the departure of its key: not once
      the trip is gone, and not once it was moved. */
  lemma LateCreateIsAbsorbedExactlyWhen(l: Link, o: Orphan, k: TripKey)
    requires Inv(l) && o in l.orphans && IsCreateOf(o.command, k) && k !in l.late
    ensures Land(l, o).server == l.server <==>
              TripOf(l.server, k).Some? && TripOf(l.server, k).value.leftHomeAt == k.leftHomeAt
  {
    hide Inv, OrphanOk, LandsLate, ServerInv, TripOf, Apart, GpsApart;
    OrphanIsOk(l, o);
    OrphanRequest(l, o);
    ServerOf(l);
    LateServer(l, k);
    CreateApart(l.server, l.claims, l.samples, l.late + {k}, o.command, k);
    HoldsMeans(l.server, l.claims, l.samples, l.late, k);
  }

  lemma HoldsMeans(s: Server, claims: Claims, samples: Samples, late: set<TripKey>, k: TripKey)
    requires ServerInv(s, claims, samples, late) && Known(claims, k) && k !in late
    ensures (exists id :: Holds(s, id, k.routeId, k.leftHomeAt)) <==>
              TripOf(s, k).Some? && TripOf(s, k).value.leftHomeAt == k.leftHomeAt
  {
    hide TripLegal;
    NoTrip(s, k);
    if id :| Holds(s, id, k.routeId, k.leftHomeAt) {
      assert Claimed(claims, k.routeId, k.leftHomeAt, s.trips[id].born);
      TripOfId(s, claims, samples, late, id);
    }
    if id :| Bears(s, id, k) {
      TripOfId(s, claims, samples, late, id);
      assert TripOf(s, k).value.leftHomeAt == k.leftHomeAt ==> Holds(s, id, k.routeId, k.leftHomeAt);
    }
  }
}
