/** The outbox, a network that may lose requests and answers, and the server, as one state machine.
    A request may be answered late or never, and one whose failure was reported, or that a relaunch has forgotten, may
    still reach the server at any later time; commands may be merged, repeated, or cancelled while they are on their way. */
module Link {
  import opened Basics
  import opened Commands
  import opened TripServer
  import opened OutboxModel
  import opened CommandFold
  import opened TripViews

  /** A request on its way, with the server's reply once the server has handled it. */
  datatype InAir = InAir(request: Request, reply: Option<Reply>)

  /** A request that may still reach the server although nobody waits for its answer any more. */
  datatype Orphan = Orphan(id: nat, command: Command, request: Request)

  /** The last seven fields are history; no step decides by them.
      `log`: every command put in and every cancellation, in order, a cancellation written as DeleteTrip.
      `claims`: departures already used, with the trip that used them first.
      `samples`: instants already sampled, with the trips that sampled them.
      `interrupted`: trips whose create was on its way during a relaunch.
      `leaked`: trips cancelled while the server held them and the outbox had no trace of it.
      `abandoned`: trips whose create was given up because its answer could not be read.
      `late`: trips of which a request changed the server when it was no longer due. */
  datatype Link = Link(
    outbox: OutboxState,
    server: Server,
    air: map<nat, InAir>,
    orphans: set<Orphan>,
    log: seq<Command>,
    claims: Claims,
    samples: Samples,
    interrupted: set<TripKey>,
    leaked: set<TripKey>,
    abandoned: set<TripKey>,
    late: set<TripKey>)

  const Start := Link(EmptyOutbox, Server(map[], map[], 1), map[], {}, [], map[], {}, {}, {}, {}, {})

  function Cmds(es: seq<Entry>): (cs: seq<Command>)
    ensures |cs| == |es| && forall i :: 0 <= i < |es| ==> cs[i] == es[i].command
  {
    seq(|es|, i requires 0 <= i < |es| => es[i].command)
  }

  /** What the commands put in so far mean for a trip when each is applied once, in order. */
  function Ideal(log: seq<Command>, k: TripKey): Option<TripRec> {
    Fold(TripWriter(k), None, log)
  }

  function IdealRows(log: seq<Command>, k: TripKey): map<Time, GpsPoint> {
    Fold(RowWriter(k, {}), map[], log)
  }

  // ---- steps -----------------------------------------------------------------------------------

  function AddClaims(claims: Claims, c: Command): Claims {
    match c
    case CreateTrip(k, _) => claims[(k.routeId, k.leftHomeAt) := k]
    case UpdateTrip(k, p) =>
      if p.leftHomeAt.Some? then claims[(k.routeId, p.leftHomeAt.value) := k] else claims
    case _ => claims
  }

  function AddSamples(samples: Samples, c: Command): Samples {
    if c.UploadGps? && c.owner.Some? then samples + SamplesOf(c.points, c.owner.value) else samples
  }

  function SamplesOf(points: seq<GpsPoint>, k: TripKey): Samples {
    set p | p in points :: (p.recordedAt, k)
  }

  /** What the recorder may put in: a trip starts with a create whose departure nobody used, later commands
      belong to a trip that is neither unknown nor cancelled and keep its record within the server's rules. */
  ghost predicate MaySubmit(l: Link, c: Command) {
    match c
    case CreateTrip(k, date) => (k.routeId, k.leftHomeAt) !in l.claims && date == KstDate(k.leftHomeAt)
    case UpdateTrip(k, p) =>
      && Ideal(l.log, k).Some? && Fits(Ideal(l.log, k), c, k)
      && (p.leftHomeAt.Some? && (k.routeId, p.leftHomeAt.value) in l.claims
          ==> l.claims[(k.routeId, p.leftHomeAt.value)] == k)
    case UpsertAttempt(k, _) => Ideal(l.log, k).Some? && Fits(Ideal(l.log, k), c, k)
    case UploadGps(owner, points) =>
      && owner.Some? && Ideal(l.log, owner.value).Some?
      && points != [] && forall p :: p in points ==> PointValid(p)
    case DeleteTrip(_) => false
  }

  function Submit(l: Link, c: Command, now: Time): Link {
    l.(outbox := Enqueue(l.outbox, c, now), log := l.log + [c],
       claims := AddClaims(l.claims, c), samples := AddSamples(l.samples, c))
  }

  /** The server has the trip, yet nothing in the outbox says so. */
  ghost predicate Leaky(l: Link, k: TripKey) {
    TripOf(l.server, k).Some? && k !in l.outbox.tripIds && !CreateMayHaveLanded(l.outbox.entries, k)
  }

  ghost function Cancel(l: Link, k: TripKey, now: Time): Link {
    l.(outbox := Discard(l.outbox, k, now), log := l.log + [DeleteTrip(k)],
       leaked := if Leaky(l, k) then l.leaked + {k} else l.leaked)
  }

  function Send(l: Link, now: Time): Link {
    var (st, d) := Next(l.outbox, now);
    if d.None? then l
    else l.(outbox := st, air := l.air[d.value.entryId := InAir(d.value.request, None)])
  }

  ghost predicate MayArrive(l: Link, id: nat) {
    id in l.air && l.air[id].reply.None?
  }

  ghost function Arrive(l: Link, id: nat): Link
    requires MayArrive(l, id)
  {
    var (s, reply) := Serve(l.server, l.air[id].request);
    l.(server := s, air := l.air[id := InAir(l.air[id].request, Some(reply))])
  }

  predicate Transient(status: int) {
    status == 408 || status == 425 || status == 429 || 500 <= status <= 599
  }

  /** The outcomes the network can report. A transient failure says nothing about whether the server acted;
      an unauthorized request was not acted upon; an unreadable body follows a success, that of a create included. */
  predicate MayReport(a: InAir, o: Outcome) {
    match o
    case TripCreated(id) => a.reply == Some(Created(id))
    case Delivered => a.reply == Some(Accepted)
    case Failed(Transport) => true
    case Failed(Http(status)) =>
      || Transient(status)
      || ((status == 401 || status == 403) && a.reply.None?)
      || a.reply == Some(Refused(status))
    case Failed(Decoding) => a.reply.Some? && !a.reply.value.Refused?
    case Failed(InvalidRequest) => false
  }

  predicate MayAnswer(l: Link, id: nat, o: Outcome) {
    id in l.air && MayReport(l.air[id], o)
  }

  /** The trip whose create the outcome makes the outbox give up. */
  function GivesUp(es: seq<Entry>, id: nat, o: Outcome): set<TripKey> {
    var i := IndexOf(es, id);
    if i < |es| && es[i].command.CreateTrip? && o == Failed(Decoding) then {es[i].command.key} else {}
  }

  /** The trip of which the outcome makes the outbox give up one command. */
  function Refuses(es: seq<Entry>, policy: RetryPolicy, id: nat, o: Outcome): set<TripKey> {
    var i := IndexOf(es, id);
    if i < |es| && o.Failed? && o.error.Http? && policy.Decide(o.error, es[i].command).Reject?
       && es[i].command.TripKeyOf().Some?
    then {es[i].command.TripKeyOf().value}
    else {}
  }

  predicate Unauthorized(o: Outcome) {
    o.Failed? && o.error.Http? && (o.error.status == 401 || o.error.status == 403)
  }

  /** What a reported failure leaves in the network when the server has not handled the request. */
  function Leftover(l: Link, id: nat, o: Outcome): set<Orphan> {
    set e | e in l.outbox.entries && e.id == id && id in l.air && l.air[id].reply.None? && !Unauthorized(o)
      :: Orphan(id, e.command, l.air[id].request)
  }

  function Answer(l: Link, policy: RetryPolicy, id: nat, o: Outcome, now: Time): Link {
    l.(outbox := Complete(policy, l.outbox, id, o, now), air := l.air - {id},
       orphans := l.orphans + Leftover(l, id, o), abandoned := l.abandoned + GivesUp(l.outbox.entries, id, o))
  }

  function CreatesOnTheWay(es: seq<Entry>): set<TripKey> {
    set e | e in es && e.inFlight && e.command.CreateTrip? :: e.command.key
  }

  function Unanswered(l: Link): set<Orphan> {
    set e | e in l.outbox.entries && e.id in l.air && l.air[e.id].reply.None?
      :: Orphan(e.id, e.command, l.air[e.id].request)
  }

  /** The app dies and comes back: it forgets whatever was on its way, and the network does not. */
  function Restart(l: Link): Link {
    l.(outbox := Relaunched(l.outbox), air := map[], orphans := l.orphans + Unanswered(l),
       interrupted := l.interrupted + CreatesOnTheWay(l.outbox.entries))
  }

  /** The outbox would send this very request again: its command is queued unchanged, comes first, and was not handled
      since it was last sent. */
  predicate StillDue(l: Link, o: Orphan, e: Entry) {
    && e in l.outbox.entries && e.id == o.id && e.command == o.command
    && Foremost(l.outbox.entries, e) && Resolve(l.outbox.tripIds, e.command) == Some(o.request)
    && (e.id in l.air ==> l.air[e.id].reply.None?)
  }

  predicate Timely(l: Link, o: Orphan) {
    exists e :: e in l.outbox.entries && StillDue(l, o, e)
  }

  /** The trip that is changed by a request that was no longer due. */
  ghost function LandsLate(l: Link, o: Orphan): set<TripKey> {
    if Serve(l.server, o.request).0 == l.server || Timely(l, o) || o.command.TripKeyOf().None? then {}
    else {o.command.TripKeyOf().value}
  }

  /** A forgotten request reaches the server after all. It may have been sent several times, so it may do so again. */
  ghost function Land(l: Link, o: Orphan): Link {
    l.(server := Serve(l.server, o.request).0, late := l.late + LandsLate(l, o))
  }

  // ---- invariant -------------------------------------------------------------------------------

  predicate Sorted(es: seq<Entry>) {
    forall i, j :: 0 <= i < j < |es| ==> es[i].id < es[j].id
  }

  ghost predicate QueueInv(l: Link) {
    && Sorted(l.outbox.entries)
    && (forall e :: e in l.outbox.entries ==> e.id < l.outbox.nextId && CommandOk(l.claims, l.samples, e.command))
    && LettersAbandoned(l.outbox.deadLetters, l.abandoned + l.late)
  }

  /** Only commands of these trips are given up. */
  predicate LettersAbandoned(letters: seq<DeadLetter>, abandoned: set<TripKey>) {
    forall d :: d in letters ==> d.command.TripKeyOf().Some? && d.command.TripKeyOf().value in abandoned
  }

  /** No earlier entry of the same lane. */
  predicate IsHead(es: seq<Entry>, e: Entry) {
    forall o :: o in es && o.id < e.id ==> o.command.LaneOf() != e.command.LaneOf()
  }

  /** Nothing else of the trip is left. */
  predicate Alone(es: seq<Entry>, e: Entry, k: TripKey) {
    forall o :: o in es && o.id != e.id ==> !o.command.Of(k)
  }

  /** Nothing of its lane is ahead of it, and a delete is all that is left of its trip. */
  predicate Foremost(es: seq<Entry>, e: Entry) {
    IsHead(es, e) && (e.command.DeleteTrip? ==> Alone(es, e, e.command.key))
  }

  predicate Tried(e: Entry) {
    e.inFlight || e.failures > 0 || e.notBefore.Some?
  }

  /** The reply is a success, and the server already holds what the command says. */
  ghost predicate Landed(s: Server, c: Command, reply: Reply, shared: set<Time>) {
    && c.TripKeyOf().Some?
    && var k := c.TripKeyOf().value;
       && WriteTrip(TripOf(s, k), c, k) == TripOf(s, k)
       && WriteRows(OwnRows(s, k, shared), c, k, shared) == OwnRows(s, k, shared)
       && match c
          case CreateTrip(_, _) => reply.Created? && Bears(s, reply.id, k)
          case DeleteTrip(_) => reply == Accepted || reply == Refused(404)
          case _ => reply == Accepted
  }

  ghost predicate Answered(l: Link, c: Command, reply: Reply) {
    && c.TripKeyOf().Some?
    && if c.TripKeyOf().value in l.late then ReplyOf(l.server, c, c.TripKeyOf().value, reply)
       else Landed(l.server, c, reply, Shared(l.samples))
  }

  ghost predicate FlightOf(l: Link, e: Entry) {
    && (Tried(e) ==> Foremost(l.outbox.entries, e) && Resolve(l.outbox.tripIds, e.command).Some?)
    && (e.inFlight <==> e.id in l.air)
    && (e.inFlight ==>
          && Resolve(l.outbox.tripIds, e.command) == Some(l.air[e.id].request)
          && (l.air[e.id].reply.Some? ==> Answered(l, e.command, l.air[e.id].reply.value)))
  }

  ghost predicate FlightInv(l: Link) {
    && (forall e :: e in l.outbox.entries ==> FlightOf(l, e))
    && (forall id :: id in l.air ==> exists e :: e in l.outbox.entries && e.id == id)
  }

  /** A forgotten request is of a known trip; if it is a create, a relaunch or a failure says that it was sent. */
  ghost predicate OrphanOk(l: Link, o: Orphan) {
    && o.id < l.outbox.nextId && CommandOk(l.claims, l.samples, o.command)
    && RequestOf(l.server, o.request, o.command, o.command.TripKeyOf().value)
    && (o.command.CreateTrip? ==>
          o.command.key in l.interrupted || forall e :: e in l.outbox.entries && e.id == o.id ==> e.failures > 0)
  }

  ghost predicate OrphansInv(l: Link) {
    forall o :: o in l.orphans ==> OrphanOk(l, o)
  }

  /** Sending everything that waits brings the server to what was recorded, within its rules at every step. */
  ghost predicate Converges(l: Link, k: TripKey) {
    var cs := Cmds(l.outbox.entries);
    var t := TripOf(l.server, k);
    var shared := Shared(l.samples);
    && Chain(TripWriter(k), Fitting(k), t, cs)
    && (k !in l.leaked ==>
          && Fold(TripWriter(k), t, cs) == Ideal(l.log, k)
          && Fold(RowWriter(k, shared), OwnRows(l.server, k, shared), cs) == IdealRows(l.log, k) - shared)
  }

  ghost predicate IdsAgree(l: Link, k: TripKey) {
    var es := l.outbox.entries;
    var ids := l.outbox.tripIds;
    && (k in ids ==>
          && ids[k] < l.server.nextId
          && (forall e :: e in es && e.command.Of(k) ==> !e.command.CreateTrip?)
          && (Bears(l.server, ids[k], k)
              || (&& ids[k] !in l.server.trips && TripOf(l.server, k).None?
                  && (exists e :: e in es && e.command == DeleteTrip(k))
                  && (forall e :: e in es && e.command.Of(k) ==> e.command.DeleteTrip?))))
    && (k !in ids ==>
          && (forall e :: e in es && e.command.Of(k) ==> CreateAhead(es, k, e.id))
          && (TripOf(l.server, k).Some? && k !in l.leaked ==> exists e :: e in es && IsCreateOf(e.command, k)))
  }

  predicate IsCreateOf(c: Command, k: TripKey) {
    c.CreateTrip? && c.key == k
  }

  predicate CreateAhead(es: seq<Entry>, k: TripKey, id: nat) {
    exists c :: c in es && IsCreateOf(c.command, k) && c.id <= id
  }

  predicate CreateLeads(es: seq<Entry>, e: Entry, k: TripKey) {
    forall o :: o in es && o.id != e.id && o.command.Of(k) ==> e.id < o.id && !o.command.CreateTrip?
  }

  predicate DeleteLasts(es: seq<Entry>, e: Entry, k: TripKey) {
    forall o :: o in es && o.id != e.id && o.command.Of(k) ==> o.id < e.id
  }

  ghost predicate CreateOf(l: Link, e: Entry, k: TripKey)
    requires IsCreateOf(e.command, k)
  {
    && (TripOf(l.server, k).None? || TripOf(l.server, k).value == FreshTrip(k, e.command.tripDate))
    && RowsOf(l.server, k) == map[]
    && CreateLeads(l.outbox.entries, e, k)
    && (TripOf(l.server, k).Some? && e.failures == 0 ==>
          k in l.interrupted || (e.id in l.air && l.air[e.id].reply.Some?))
  }

  ghost predicate DeleteOf(l: Link, e: Entry, k: TripKey) {
    && Ideal(l.log, k).None? && k !in l.leaked
    && DeleteLasts(l.outbox.entries, e, k)
  }

  ghost predicate TripInv(l: Link, k: TripKey) {
    && (forall e :: e in l.outbox.entries && IsCreateOf(e.command, k) ==> CreateOf(l, e, k))
    && (forall e :: e in l.outbox.entries && e.command == DeleteTrip(k) ==> DeleteOf(l, e, k))
    && (k in l.leaked ==>
          && Ideal(l.log, k).None? && TripOf(l.server, k).Some? && k !in l.outbox.tripIds
          && k in l.interrupted && forall e :: e in l.outbox.entries ==> !e.command.Of(k))
    && (!Known(l.claims, k) ==>
          && Ideal(l.log, k).None? && k !in l.outbox.tripIds && k !in l.leaked
          && IdealRows(l.log, k) == map[])
  }

  /** The server has the bare trip, and the outbox will never know its id. */
  ghost predicate Stranded(l: Link, k: TripKey) {
    && Known(l.claims, k) && k !in l.outbox.tripIds
    && (forall e :: e in l.outbox.entries && e.command.Of(k) ==> !e.command.CreateTrip? && !e.command.DeleteTrip?)
    && TripOf(l.server, k) == Some(FreshTrip(k, KstDate(k.leftHomeAt))) && RowsOf(l.server, k) == map[]
  }

  /** What is left of the order of a trip's commands once a request of it has landed late: what the outbox sees. */
  ghost predicate Loose(l: Link, k: TripKey) {
    var es := l.outbox.entries;
    var ids := l.outbox.tripIds;
    && Known(l.claims, k)
    && (k in ids ==> OwnId(l.server, ids[k], k) && forall e :: e in es && e.command.Of(k) ==> !e.command.CreateTrip?)
    && (forall e :: e in es && IsCreateOf(e.command, k) ==> CreateLeads(es, e, k))
    && (forall e :: e in es && e.command == DeleteTrip(k) ==> Ideal(l.log, k).None? && DeleteLasts(es, e, k))
    && (if k in l.abandoned
        then k !in ids && forall e :: e in es && e.command.Of(k) ==> !e.command.CreateTrip? && !e.command.DeleteTrip?
        else k !in ids ==>
               && (forall e :: e in es && e.command.Of(k) ==> CreateAhead(es, k, e.id))
               && (Ideal(l.log, k).Some? ==> HasCreate(es, k)))
  }

  predicate HasCreate(es: seq<Entry>, k: TripKey) {
    exists e :: e in es && IsCreateOf(e.command, k)
  }

  ghost predicate KeyInv(l: Link, k: TripKey) {
    if k in l.late then Loose(l, k)
    else if k in l.abandoned then Stranded(l, k)
    else Converges(l, k) && IdsAgree(l, k) && TripInv(l, k)
  }

  ghost predicate Inv(l: Link) {
    && ServerInv(l.server, l.claims, l.samples, l.late)
    && QueueInv(l)
    && FlightInv(l)
    && OrphansInv(l)
    && forall k :: KeyInv(l, k)
  }

  /** Nothing of the trip is queued any more. */
  predicate Finished(l: Link, k: TripKey) {
    forall e :: e in l.outbox.entries ==> !e.command.Of(k)
  }

  // What the invariant says, one part at a time.

  lemma KeyOf(l: Link, k: TripKey)
    requires Inv(l) && k !in l.abandoned && k !in l.late
    ensures Converges(l, k) && IdsAgree(l, k) && TripInv(l, k)
  {
    assert KeyInv(l, k);
  }

  lemma StrandedOf(l: Link, k: TripKey)
    requires Inv(l) && k in l.abandoned && k !in l.late
    ensures Stranded(l, k)
  {
    assert KeyInv(l, k);
  }

  lemma LooseOf(l: Link, k: TripKey)
    requires Inv(l) && k in l.late
    ensures Loose(l, k)
  {
    assert KeyInv(l, k);
  }

  lemma CreateIsOf(l: Link, e: Entry, k: TripKey)
    requires Inv(l) && e in l.outbox.entries && IsCreateOf(e.command, k) && k !in l.late
    ensures k !in l.abandoned && CreateOf(l, e, k)
  {
    assert KeyInv(l, k);
  }

  // What it says of the outbox holds of every trip.

  lemma CreateIsFirst(l: Link, e: Entry, k: TripKey)
    requires Inv(l) && e in l.outbox.entries && IsCreateOf(e.command, k)
    ensures k !in l.abandoned && k !in l.outbox.tripIds && CreateLeads(l.outbox.entries, e, k)
  {
    assert KeyInv(l, k);
  }

  lemma DeleteIsLast(l: Link, e: Entry, k: TripKey)
    requires Inv(l) && e in l.outbox.entries && e.command == DeleteTrip(k)
    ensures k !in l.abandoned && Ideal(l.log, k).None? && DeleteLasts(l.outbox.entries, e, k)
  {
    assert KeyInv(l, k);
  }

  lemma CreateIsAhead(l: Link, e: Entry, k: TripKey)
    requires Inv(l) && e in l.outbox.entries && e.command.Of(k) && k !in l.abandoned && k !in l.outbox.tripIds
    ensures CreateAhead(l.outbox.entries, k, e.id)
  {
    assert KeyInv(l, k);
  }

  lemma AbandonedHasNoId(l: Link, k: TripKey)
    requires Inv(l) && k in l.abandoned
    ensures k !in l.outbox.tripIds && Known(l.claims, k)
    ensures forall e :: e in l.outbox.entries && e.command.Of(k) ==> !e.command.CreateTrip? && !e.command.DeleteTrip?
  {
    assert KeyInv(l, k);
  }

  lemma IdIsOwn(l: Link, k: TripKey)
    requires Inv(l) && k in l.outbox.tripIds
    ensures OwnId(l.server, l.outbox.tripIds[k], k)
  {
    assert KeyInv(l, k);
  }

  /** Nothing of an abandoned trip was ever tried. */
  lemma TriedIsKept(l: Link, e: Entry, k: TripKey)
    requires Inv(l) && e in l.outbox.entries && Tried(e) && e.command.Of(k)
    ensures k !in l.abandoned
  {
    assert FlightOf(l, e);
    if k in l.abandoned {
      AbandonedHasNoId(l, k);
    }
  }

  lemma KnownWhenRecorded(l: Link, k: TripKey)
    requires Inv(l) && Ideal(l.log, k).Some?
    ensures Known(l.claims, k)
  {
    assert KeyInv(l, k);
  }

  lemma EntryOf(l: Link, e: Entry)
    requires Inv(l) && e in l.outbox.entries
    ensures FlightOf(l, e) && CommandOk(l.claims, l.samples, e.command) && e.id < l.outbox.nextId
  {
  }

  lemma EntriesSorted(l: Link)
    requires Inv(l)
    ensures Sorted(l.outbox.entries) && LettersAbandoned(l.outbox.deadLetters, l.abandoned + l.late)
  {
  }

  lemma ServerOf(l: Link)
    requires Inv(l)
    ensures ServerInv(l.server, l.claims, l.samples, l.late)
  {
  }

  lemma StartsWell()
    ensures Inv(Start)
  {
    forall k ensures KeyInv(Start, k) {
      NoTrip(Start.server, k);
    }
  }
}
