/** The server seen through natural keys: the record and the GPS points of one trip, what a command does to
    them, and that the server's id-based requests do exactly that. */
module TripViews {
  import opened Basics
  import opened Commands
  import opened TripServer
  import opened ServerLaws

  // ---- what a command means for one trip ---------------------------------------------------------

  /** The effect of a command on the record of trip `k`, if there is one. */
  function WriteTrip(t: Option<TripRec>, c: Command, k: TripKey): Option<TripRec> {
    if !c.Of(k) then t
    else
      match c
      case CreateTrip(_, date) => if t.None? then Some(FreshTrip(k, date)) else t
      case UpdateTrip(_, patch) => if t.Some? then Some(WritePatch(t.value, patch)) else None
      case UpsertAttempt(_, upsert) => if t.Some? then Some(WriteUpsert(t.value, upsert)) else None
      case UploadGps(_, _) => t
      case DeleteTrip(_) => None
  }

  /** Adds the points at instants that no other trip sampled, the first of each instant. */
  function AddPoints(rows: map<Time, GpsPoint>, points: seq<GpsPoint>, shared: set<Time>): map<Time, GpsPoint> {
    if points == [] then rows
    else
      var rest := AddPoints(rows, points[..|points| - 1], shared);
      var p := points[|points| - 1];
      if p.recordedAt in shared || p.recordedAt in rest then rest else rest[p.recordedAt := p]
  }

  /** The effect of a command on the GPS points of trip `k`, apart from shared instants. */
  function WriteRows(rows: map<Time, GpsPoint>, c: Command, k: TripKey, shared: set<Time>): map<Time, GpsPoint> {
    if !c.Of(k) then rows
    else if c.UploadGps? then AddPoints(rows, c.points, shared)
    else if c.DeleteTrip? then map[]
    else rows
  }

  /** The server, holding `t` for trip `k`, accepts the command and stays within its rules. */
  predicate Fits(t: Option<TripRec>, c: Command, k: TripKey) {
    c.Of(k) ==>
      match c
      case CreateTrip(_, date) => date == KstDate(k.leftHomeAt) && (t.None? || t.value == FreshTrip(k, date))
      case UpdateTrip(_, patch) => t.Some? && TripLegal(WritePatch(t.value, patch))
      case UpsertAttempt(_, u) =>
        && t.Some? && 1 <= u.Seq() <= MAX_ATTEMPT_SEQ && Numbered(u, |t.value.On(u.legId)|)
        && TripLegal(WriteUpsert(t.value, u))
      case UploadGps(_, points) => BatchValid(points)
      case DeleteTrip(_) => true
  }

  function TripWriter(k: TripKey): (Option<TripRec>, Command) -> Option<TripRec> {
    (t, c) => WriteTrip(t, c, k)
  }

  function RowWriter(k: TripKey, shared: set<Time>): (map<Time, GpsPoint>, Command) -> map<Time, GpsPoint> {
    (rows, c) => WriteRows(rows, c, k, shared)
  }

  function Fitting(k: TripKey): (Option<TripRec>, Command) -> bool {
    (t, c) => Fits(t, c, k)
  }

  /** A command of a trip takes effect once, however often it is repeated. */
  lemma WriteTripTwice(t: Option<TripRec>, c: Command, k: TripKey)
    ensures WriteTrip(WriteTrip(t, c, k), c, k) == WriteTrip(t, c, k)
    ensures Fits(t, c, k) ==> Fits(WriteTrip(t, c, k), c, k)
  {
    if c.Of(k) && c.UpsertAttempt? && t.Some? {
      UpsertIsIdempotent(t.value, c.upsert);
      if Fits(t, c, k) {
        assert Numbered(c.upsert, |WriteUpsert(t.value, c.upsert).On(c.upsert.legId)|);
      }
    }
  }

  lemma {:induction false} AddedKeys(rows: map<Time, GpsPoint>, points: seq<GpsPoint>, shared: set<Time>)
    ensures var after := AddPoints(rows, points, shared);
            && (forall t :: t in rows ==> t in after && after[t] == rows[t])
            && (forall p :: p in points && p.recordedAt !in shared ==> p.recordedAt in after)
            && (forall t :: t in after && t !in rows ==> t !in shared && exists p :: p in points && p.recordedAt == t)
  {
    if points != [] {
      AddedKeys(rows, points[..|points| - 1], shared);
      assert points == points[..|points| - 1] + [points[|points| - 1]];
    }
  }

  lemma {:induction false} AddKnown(rows: map<Time, GpsPoint>, points: seq<GpsPoint>, shared: set<Time>)
    requires forall p :: p in points ==> p.recordedAt in rows || p.recordedAt in shared
    ensures AddPoints(rows, points, shared) == rows
  {
    if points != [] {
      AddKnown(rows, points[..|points| - 1], shared);
      assert points[|points| - 1] in points;
    }
  }

  lemma WriteRowsTwice(rows: map<Time, GpsPoint>, c: Command, k: TripKey, shared: set<Time>)
    ensures WriteRows(WriteRows(rows, c, k, shared), c, k, shared) == WriteRows(rows, c, k, shared)
  {
    if c.UploadGps? {
      AddedKeys(rows, c.points, shared);
      AddKnown(AddPoints(rows, c.points, shared), c.points, shared);
    }
  }

  /** Splitting an upload does not change what it adds. */
  lemma {:induction false} AddPointsSplit(rows: map<Time, GpsPoint>, a: seq<GpsPoint>, b: seq<GpsPoint>, shared: set<Time>)
    ensures AddPoints(rows, a + b, shared) == AddPoints(AddPoints(rows, a, shared), b, shared)
    decreases |b|
  {
    if b == [] {
      assert a + b == a;
    } else {
      assert (a + b)[..|a + b| - 1] == a + b[..|b| - 1];
      AddPointsSplit(rows, a, b[..|b| - 1], shared);
    }
  }

  /** When more instants turn out to be shared, the points at the others are the same. */
  lemma {:induction false} AddPointsApart(rows: map<Time, GpsPoint>, points: seq<GpsPoint>, shared: set<Time>, more: set<Time>)
    requires shared <= more
    ensures AddPoints(rows - more, points, more) == AddPoints(rows, points, shared) - more
  {
    if points != [] {
      AddPointsApart(rows, points[..|points| - 1], shared, more);
    }
  }

  lemma WriteRowsApart(rows: map<Time, GpsPoint>, c: Command, k: TripKey, shared: set<Time>, more: set<Time>)
    requires shared <= more
    ensures WriteRows(rows - more, c, k, more) == WriteRows(rows, c, k, shared) - more
  {
    if c.UploadGps? {
      AddPointsApart(rows, c.points, shared, more);
    }
  }

  // ---- the server through keys -------------------------------------------------------------------

  ghost predicate Bears(s: Server, id: int, k: TripKey) {
    id in s.trips && s.trips[id].born == k
  }

  ghost function TripOf(s: Server, k: TripKey): Option<TripRec> {
    if exists id :: Bears(s, id, k) then var id :| Bears(s, id, k); Some(s.trips[id]) else None
  }

  ghost predicate RowOf(s: Server, t: Time, k: TripKey) {
    t in s.gps && s.gps[t].tripId.Some? && Bears(s, s.gps[t].tripId.value, k)
  }

  ghost function RowsOf(s: Server, k: TripKey): map<Time, GpsPoint> {
    map t | t in s.gps && RowOf(s, t, k) :: s.gps[t].point
  }

  /** The rows of the trip apart from shared instants. */
  ghost function OwnRows(s: Server, k: TripKey, shared: set<Time>): map<Time, GpsPoint> {
    RowsOf(s, k) - shared
  }

  /** Departures that trips have used, each with the first trip that used it. */
  type Claims = map<(int, Time), TripKey>

  predicate Claimed(claims: Claims, routeId: int, at: Time, k: TripKey) {
    (routeId, at) in claims && claims[(routeId, at)] == k && k.routeId == routeId
  }

  predicate Known(claims: Claims, k: TripKey) {
    Claimed(claims, k.routeId, k.leftHomeAt, k)
  }

  /** Instants of GPS samples, each with the trips that sampled it. */
  type Samples = set<(Time, TripKey)>

  predicate SampledBy(samples: Samples, points: seq<GpsPoint>, k: TripKey) {
    forall p :: p in points ==> (p.recordedAt, k) in samples
  }

  /** Instants sampled by more than one trip. A row belongs to the first upload that reaches the server, so at these
      the rows depend on the order of arrival. */
  function Shared(samples: Samples): set<Time> {
    set x, y | x in samples && y in samples && x.0 == y.0 && x.1 != y.1 :: x.0
  }

  lemma SharedMeans(samples: Samples, t: Time, a: TripKey, b: TripKey)
    requires (t, a) in samples && (t, b) in samples && t !in Shared(samples)
    ensures a == b
  {
    var x, y := (t, a), (t, b);
    assert x in samples && y in samples && x.0 == y.0;
  }

  lemma SharedGrows(samples: Samples, samples': Samples)
    requires samples <= samples'
    ensures Shared(samples) <= Shared(samples')
  {
  }

  /** A command that belongs in the queue. */
  predicate CommandOk(claims: Claims, samples: Samples, c: Command) {
    && c.TripKeyOf().Some?
    && var k := c.TripKeyOf().value;
       && Known(claims, k)
       && (c.CreateTrip? ==> c.tripDate == KstDate(k.leftHomeAt))
       && (c.UpdateTrip? && c.patch.leftHomeAt.Some? ==> Claimed(claims, k.routeId, c.patch.leftHomeAt.value, k))
       && (c.UploadGps? ==> BatchValid(c.points) && SampledBy(samples, c.points, k))
  }

  /** What the server keeps: departures, dates and points that trips have claimed, its own rules, and one row per trip,
      except for trips of which a request landed late. */
  ghost predicate ServerInv(s: Server, claims: Claims, samples: Samples, late: set<TripKey>) {
    && (forall id :: id in s.trips ==>
          && id < s.nextId
          && Known(claims, s.trips[id].born)
          && Claimed(claims, s.trips[id].born.routeId, s.trips[id].leftHomeAt, s.trips[id].born)
          && s.trips[id].tripDate == KstDate(s.trips[id].born.leftHomeAt)
          && TripLegal(s.trips[id]))
    && (forall i, j :: i in s.trips && j in s.trips && s.trips[i].born == s.trips[j].born ==>
          i == j || s.trips[i].born in late)
    && (forall t :: t in s.gps ==>
          && s.gps[t].tripId.Some? && s.gps[t].tripId.value in s.trips
          && (t, s.trips[s.gps[t].tripId.value].born) in samples)
  }

  lemma TripOfId(s: Server, claims: Claims, samples: Samples, late: set<TripKey>, id: int)
    requires ServerInv(s, claims, samples, late) && id in s.trips && s.trips[id].born !in late
    ensures TripOf(s, s.trips[id].born) == Some(s.trips[id])
  {
    assert Bears(s, id, s.trips[id].born);
  }

  lemma NoTrip(s: Server, k: TripKey)
    ensures TripOf(s, k).None? <==> forall id :: id in s.trips ==> s.trips[id].born != k
    ensures TripOf(s, k).None? ==> RowsOf(s, k) == map[]
  {
    if exists id :: id in s.trips && s.trips[id].born == k {
      var id :| id in s.trips && s.trips[id].born == k;
      assert Bears(s, id, k);
    }
  }

  // ---- what one request may touch ----------------------------------------------------------------

  /** An id that is the trip's, or nobody's any more. */
  ghost predicate OwnId(s: Server, id: int, k: TripKey) {
    id < s.nextId && (id in s.trips ==> s.trips[id].born == k)
  }

  /** A request for the command of trip `k`. */
  ghost predicate RequestOf(s: Server, r: Request, c: Command, k: TripKey) {
    && c.Of(k)
    && match c
       case CreateTrip(_, date) => r == CreateReq(k.routeId, date, k.leftHomeAt)
       case UpdateTrip(_, patch) => r.UpdateReq? && r.patch == patch && OwnId(s, r.id, k)
       case UpsertAttempt(_, upsert) => r.UpsertReq? && r.upsert == upsert && OwnId(s, r.id, k)
       case UploadGps(_, points) => r.UploadReq? && r.points == points && r.owner.Some? && OwnId(s, r.owner.value, k)
       case DeleteTrip(_) => r.DeleteReq? && OwnId(s, r.id, k)
  }

  /** What a reply to any request of the trip can be. */
  ghost predicate ReplyOf(s: Server, c: Command, k: TripKey, reply: Reply) {
    match reply
    case Created(id) => c.CreateTrip? && OwnId(s, id, k)
    case Accepted => !c.CreateTrip?
    case Refused(status) => !c.CreateTrip? && status in {400, 404, 409} && (c.DeleteTrip? ==> status == 404)
  }

  /** Rows of other trips stay, rows keep their trip, and new rows get new ids. */
  ghost predicate Apart(s: Server, s': Server, k: TripKey) {
    && (forall id :: id in s.trips && s.trips[id].born != k ==> id in s'.trips && s'.trips[id] == s.trips[id])
    && (forall id :: id in s'.trips && s'.trips[id].born != k ==> id in s.trips)
    && (forall id :: id in s.trips && id in s'.trips ==> s'.trips[id].born == s.trips[id].born)
    && (forall id :: id in s'.trips && id !in s.trips ==> s.nextId <= id)
    && s.nextId <= s'.nextId
  }

  /** Points of other trips stay, and none are added to them. */
  ghost predicate GpsApart(s: Server, s': Server, k: TripKey) {
    && (forall t :: t in s.gps && !RowOf(s, t, k) ==> t in s'.gps && s'.gps[t] == s.gps[t])
    && (forall t :: t in s'.gps && !RowOf(s', t, k) ==> t in s.gps && s'.gps[t] == s.gps[t])
  }

  ghost predicate Untouched(s: Server, s': Server, k: TripKey, late: set<TripKey>) {
    && (forall other :: other != k && other !in late ==> TripOf(s', other) == TripOf(s, other))
    && (forall other :: other != k ==> RowsOf(s', other) == RowsOf(s, other))
    && Apart(s, s', k)
  }

  lemma SameTrip(s: Server, s': Server, claims: Claims, samples: Samples, late: set<TripKey>, k: TripKey)
    requires ServerInv(s, claims, samples, late) && ServerInv(s', claims, samples, late) && k !in late
    requires forall i :: Bears(s, i, k) <==> Bears(s', i, k)
    requires forall i :: Bears(s, i, k) && Bears(s', i, k) ==> s'.trips[i] == s.trips[i]
    ensures TripOf(s', k) == TripOf(s, k)
  {
    if i :| Bears(s, i, k) {
      TripOfId(s, claims, samples, late, i);
      TripOfId(s', claims, samples, late, i);
    }
  }

  lemma OthersKeepRows(s: Server, s': Server, claims: Claims, samples: Samples, late: set<TripKey>, k: TripKey, other: TripKey)
    requires ServerInv(s, claims, samples, late) && ServerInv(s', claims, samples, late)
    requires Apart(s, s', k) && GpsApart(s, s', k) && other != k
    ensures RowsOf(s', other) == RowsOf(s, other)
  {
    hide ServerInv;
    forall t ensures RowOf(s', t, other) <==> RowOf(s, t, other) {
      if RowOf(s', t, other) {
        assert !RowOf(s', t, k);
      }
    }
  }

  lemma ApartIsUntouched(s: Server, s': Server, claims: Claims, samples: Samples, late: set<TripKey>, k: TripKey)
    requires ServerInv(s, claims, samples, late) && ServerInv(s', claims, samples, late)
    requires Apart(s, s', k) && GpsApart(s, s', k)
    ensures Untouched(s, s', k, late)
  {
    hide ServerInv, TripOf, RowsOf, GpsApart;
    forall other | other != k && other !in late ensures TripOf(s', other) == TripOf(s, other) {
      SameTrip(s, s', claims, samples, late, other);
    }
    forall other | other != k ensures RowsOf(s', other) == RowsOf(s, other) {
      OthersKeepRows(s, s', claims, samples, late, k, other);
    }
  }

  lemma NothingChanged(s: Server, k: TripKey)
    ensures Apart(s, s, k) && GpsApart(s, s, k)
  {
  }

  lemma RowWritten(s: Server, claims: Claims, samples: Samples, late: set<TripKey>, id: int, t: TripRec)
    requires ServerInv(s, claims, samples, late) && id in s.trips && TripLegal(t)
    requires t.born == s.trips[id].born && t.tripDate == s.trips[id].tripDate
    requires Claimed(claims, t.born.routeId, t.leftHomeAt, t.born)
    ensures var s' := s.(trips := s.trips[id := t]);
            ServerInv(s', claims, samples, late) && Apart(s, s', t.born) && GpsApart(s, s', t.born)
  {
    hide TripLegal, Claimed, Known;
  }

  /** A write that the server took was legal. */
  lemma PatchTaken(s: Server, id: int, p: TripPatch)
    requires id in s.trips && TripLegal(s.trips[id]) && ServeUpdate(s, id, p).1.Accepted?
    ensures TripLegal(WritePatch(s.trips[id], p))
    ensures ServeUpdate(s, id, p).0 == s.(trips := s.trips[id := WritePatch(s.trips[id], p)])
  {
    hide TripLegal, WithinTrip, Ordered, Holds;
    PatchedIsLegal(s.trips[id], p);
  }

  lemma UpsertTaken(s: Server, id: int, u: Upsert)
    requires id in s.trips && TripLegal(s.trips[id]) && ServeUpsert(s, id, u).1.Accepted?
    ensures TripLegal(WriteUpsert(s.trips[id], u))
    ensures ServeUpsert(s, id, u).0 == s.(trips := s.trips[id := WriteUpsert(s.trips[id], u)])
  {
    hide TripLegal, WithinTrip, AlightsAfterDeparture, DeparturesInOrder, WriteUpsert;
    UpsertedIsLegal(s.trips[id], u);
  }

  /** Otherwise nothing happened. */
  lemma WriteRefused(s: Server, id: int, c: Command, k: TripKey)
    requires c.Of(k)
    ensures c.UpdateTrip? && !ServeUpdate(s, id, c.patch).1.Accepted? ==>
              ServeUpdate(s, id, c.patch).0 == s && ReplyOf(s, c, k, ServeUpdate(s, id, c.patch).1)
    ensures c.UpsertAttempt? && !ServeUpsert(s, id, c.upsert).1.Accepted? ==>
              ServeUpsert(s, id, c.upsert).0 == s && ReplyOf(s, c, k, ServeUpsert(s, id, c.upsert).1)
    ensures c.UpdateTrip? && ServeUpdate(s, id, c.patch).1.Accepted? ==> id in s.trips
    ensures c.UpsertAttempt? && ServeUpsert(s, id, c.upsert).1.Accepted? ==> id in s.trips
  {
    hide WithinTrip, AlightsAfterDeparture, DeparturesInOrder, WriteUpsert, WritePatch, Ordered, Holds;
  }

  lemma PatchApart(s: Server, claims: Claims, samples: Samples, late: set<TripKey>, id: int, c: Command, k: TripKey)
    requires ServerInv(s, claims, samples, late) && CommandOk(claims, samples, c) && c.UpdateTrip? && c.key == k
    requires OwnId(s, id, k)
    ensures var (s', reply) := ServeUpdate(s, id, c.patch);
            && ServerInv(s', claims, samples, late) && Apart(s, s', k) && GpsApart(s, s', k) && ReplyOf(s', c, k, reply)
  {
    hide ServeUpdate, TripLegal, Apart, GpsApart;
    NothingChanged(s, k);
    WriteRefused(s, id, c, k);
    if ServeUpdate(s, id, c.patch).1.Accepted? {
      PatchTaken(s, id, c.patch);
      RowWritten(s, claims, samples, late, id, WritePatch(s.trips[id], c.patch));
    }
  }

  /** The server's own checks keep its rules. */
  lemma PatchedIsLegal(t: TripRec, p: TripPatch)
    requires TripLegal(t) && var t' := WritePatch(t, p);
             && Ordered(Some(t'.leftHomeAt), t'.arrivedAt)
             && forall leg, i :: leg in t'.attempts && 0 <= i < |t'.attempts[leg]| ==>
                  WithinTrip(t'.leftHomeAt, t'.arrivedAt, t'.attempts[leg][i])
    ensures TripLegal(WritePatch(t, p))
  {
  }

  lemma UpsertedIsLegal(t: TripRec, u: Upsert)
    requires TripLegal(t) && 1 <= u.Seq() <= MAX_ATTEMPT_SEQ && Numbered(u, |t.On(u.legId)|)
    requires var t' := WriteUpsert(t, u);
             var list := t'.On(u.legId);
             && AlightsAfterDeparture(list[u.Seq() - 1]) && WithinTrip(t'.leftHomeAt, t'.arrivedAt, list[u.Seq() - 1])
             && DeparturesInOrder(list)
    ensures TripLegal(WriteUpsert(t, u))
  {
    var t' := WriteUpsert(t, u);
    assert LegLegal(t.leftHomeAt, t.arrivedAt, t.On(u.legId));
    hide DeparturesInOrder, WithinTrip, AlightsAfterDeparture;
    assert LegLegal(t'.leftHomeAt, t'.arrivedAt, t'.attempts[u.legId]);
  }

  lemma UpsertApart(s: Server, claims: Claims, samples: Samples, late: set<TripKey>, id: int, c: Command, k: TripKey)
    requires ServerInv(s, claims, samples, late) && CommandOk(claims, samples, c) && c.UpsertAttempt? && c.key == k
    requires OwnId(s, id, k)
    ensures var (s', reply) := ServeUpsert(s, id, c.upsert);
            && ServerInv(s', claims, samples, late) && Apart(s, s', k) && GpsApart(s, s', k) && ReplyOf(s', c, k, reply)
  {
    hide ServeUpsert, TripLegal, Apart, GpsApart;
    NothingChanged(s, k);
    WriteRefused(s, id, c, k);
    if ServeUpsert(s, id, c.upsert).1.Accepted? {
      UpsertTaken(s, id, c.upsert);
      RowWritten(s, claims, samples, late, id, WriteUpsert(s.trips[id], c.upsert));
    }
  }

  lemma {:induction false} InsertedOwned(s: Server, id: int, points: seq<GpsPoint>)
    ensures var gps := InsertPoints(s.gps, Some(id), points);
            && (forall t :: t in s.gps ==> t in gps && gps[t] == s.gps[t])
            && (forall t :: t in gps && t !in s.gps ==> gps[t].tripId == Some(id) && exists p :: p in points && p.recordedAt == t)
  {
    InsertedKeys(s.gps, Some(id), points);
  }

  lemma UploadApart(s: Server, claims: Claims, samples: Samples, late: set<TripKey>, id: int, c: Command, k: TripKey)
    requires ServerInv(s, claims, samples, late) && CommandOk(claims, samples, c) && c.UploadGps? && c.owner == Some(k)
    requires OwnId(s, id, k)
    ensures var (s', reply) := ServeUpload(s, Some(id), c.points);
            && ServerInv(s', claims, samples, late) && Apart(s, s', k) && GpsApart(s, s', k) && ReplyOf(s', c, k, reply)
  {
    if id in s.trips && BatchValid(c.points) {
      InsertedOwned(s, id, c.points);
      hide InsertPoints, BatchValid, TripLegal;
    }
  }

  lemma DeleteApart(s: Server, claims: Claims, samples: Samples, late: set<TripKey>, id: int, c: Command, k: TripKey)
    requires ServerInv(s, claims, samples, late) && c.DeleteTrip? && c.key == k && OwnId(s, id, k)
    ensures var (s', reply) := ServeDelete(s, id);
            && ServerInv(s', claims, samples, late) && Apart(s, s', k) && GpsApart(s, s', k) && ReplyOf(s', c, k, reply)
  {
    hide TripLegal;
  }

  /** A create finds a row of its own trip only; without one it makes one, the only one of a trip of which nothing landed
      late, as long as that trip did not move its departure. */
  lemma CreateApart(s: Server, claims: Claims, samples: Samples, late: set<TripKey>, c: Command, k: TripKey)
    requires ServerInv(s, claims, samples, late) && CommandOk(claims, samples, c) && c.CreateTrip? && c.key == k
    requires k in late || TripOf(s, k).None? || TripOf(s, k).value.leftHomeAt == k.leftHomeAt
    ensures var (s', reply) := ServeCreate(s, k.routeId, c.tripDate, k.leftHomeAt);
            && ServerInv(s', claims, samples, late) && Apart(s, s', k) && GpsApart(s, s', k) && ReplyOf(s', c, k, reply)
            && Bears(s', reply.id, k)
            && s' == (if exists id :: Holds(s, id, k.routeId, k.leftHomeAt) then s
                      else s.(trips := s.trips[s.nextId := FreshTrip(k, c.tripDate)], nextId := s.nextId + 1))
  {
    hide TripLegal;
    forall id | Bears(s, id, k) && k !in late ensures Holds(s, id, k.routeId, k.leftHomeAt) {
      TripOfId(s, claims, samples, late, id);
    }
    if exists id :: Holds(s, id, k.routeId, k.leftHomeAt) {
      forall id | Holds(s, id, k.routeId, k.leftHomeAt) ensures Bears(s, id, k) && s.trips[id].tripDate == c.tripDate {
        assert Claimed(claims, k.routeId, k.leftHomeAt, s.trips[id].born);
      }
    } else {
      FreshApart(s, claims, samples, late, k, c.tripDate);
    }
  }

  lemma FreshApart(s: Server, claims: Claims, samples: Samples, late: set<TripKey>, k: TripKey, date: int)
    requires ServerInv(s, claims, samples, late) && Known(claims, k) && date == KstDate(k.leftHomeAt)
    requires forall id :: Bears(s, id, k) ==> k in late
    ensures var s' := s.(trips := s.trips[s.nextId := FreshTrip(k, date)], nextId := s.nextId + 1);
            ServerInv(s', claims, samples, late) && Apart(s, s', k) && GpsApart(s, s', k)
  {
    FreshIsLegal(k, date);
    hide TripLegal;
    var s' := s.(trips := s.trips[s.nextId := FreshTrip(k, date)], nextId := s.nextId + 1);
    forall i | i in s.trips && s.trips[i].born == k ensures k in late {
      assert Bears(s, i, k);
    }
  }

  lemma FreshIsLegal(k: TripKey, date: int)
    ensures TripLegal(FreshTrip(k, date))
  {
  }

  /** Whatever the server does with a request of a trip, it touches nothing else. */
  lemma ServeApart(s: Server, claims: Claims, samples: Samples, late: set<TripKey>, r: Request, c: Command, k: TripKey)
    requires ServerInv(s, claims, samples, late) && CommandOk(claims, samples, c) && RequestOf(s, r, c, k)
    requires c.CreateTrip? ==> k in late || TripOf(s, k).None? || TripOf(s, k).value.leftHomeAt == k.leftHomeAt
    ensures var (s', reply) := Serve(s, r);
            ServerInv(s', claims, samples, late) && Untouched(s, s', k, late) && ReplyOf(s', c, k, reply)
  {
    hide ServerInv, CommandOk, Apart, GpsApart, Untouched, TripOf, ServeUpdate, ServeUpsert, ServeUpload, ServeDelete;
    hide ServeCreate;
    var (s', reply) := Serve(s, r);
    match c {
      case CreateTrip(_, _) => CreateApart(s, claims, samples, late, c, k);
      case UpdateTrip(_, _) => PatchApart(s, claims, samples, late, r.id, c, k);
      case UpsertAttempt(_, _) => UpsertApart(s, claims, samples, late, r.id, c, k);
      case UploadGps(_, _) => UploadApart(s, claims, samples, late, r.owner.value, c, k);
      case DeleteTrip(_) => DeleteApart(s, claims, samples, late, r.id, c, k);
    }
    ApartIsUntouched(s, s', claims, samples, late, k);
  }

  // ---- what one request does for its trip --------------------------------------------------------

  /** What one request may do: the trip it names takes the command, every other trip keeps what it has. */
  ghost predicate Takes(s: Server, s': Server, c: Command, k: TripKey, shared: set<Time>, late: set<TripKey>) {
    && TripOf(s', k) == WriteTrip(TripOf(s, k), c, k)
    && OwnRows(s', k, shared) == WriteRows(OwnRows(s, k, shared), c, k, shared)
    && (!c.UploadGps? && !c.DeleteTrip? ==> RowsOf(s', k) == RowsOf(s, k))
    && Untouched(s, s', k, late)
  }

  /** Writing over the row of one trip. */
  lemma WriteRow(s: Server, s': Server, claims: Claims, samples: Samples, late: set<TripKey>, id: int, t: TripRec, k: TripKey)
    requires ServerInv(s, claims, samples, late) && ServerInv(s', claims, samples, late) && k !in late
    requires id in s.trips && s.trips[id].born == k == t.born && s' == s.(trips := s.trips[id := t])
    ensures TripOf(s, k) == Some(s.trips[id]) && TripOf(s', k) == Some(t) && RowsOf(s', k) == RowsOf(s, k)
  {
    TripOfId(s, claims, samples, late, id);
    TripOfId(s', claims, samples, late, id);
    forall x ensures RowOf(s', x, k) <==> RowOf(s, x, k) {}
  }

  lemma UpdateServed(s: Server, claims: Claims, samples: Samples, late: set<TripKey>, id: int, c: Command)
    requires ServerInv(s, claims, samples, late) && c.UpdateTrip? && id in s.trips && s.trips[id].born == c.key
    requires c.key !in late && TripLegal(WritePatch(s.trips[id], c.patch))
    requires c.patch.leftHomeAt.Some? ==> Claimed(claims, c.key.routeId, c.patch.leftHomeAt.value, c.key)
    ensures ServeUpdate(s, id, c.patch) == (s.(trips := s.trips[id := WritePatch(s.trips[id], c.patch)]), Accepted)
  {
    var t := WritePatch(s.trips[id], c.patch);
    forall other | Holds(s, other, t.born.routeId, t.leftHomeAt) ensures other == id {
      assert Claimed(claims, t.born.routeId, t.leftHomeAt, s.trips[other].born);
    }
  }

  lemma UpsertServed(s: Server, id: int, c: Command)
    requires c.UpsertAttempt? && id in s.trips && s.trips[id].born == c.key
    requires Fits(Some(s.trips[id]), c, c.key)
    ensures ServeUpsert(s, id, c.upsert) == (s.(trips := s.trips[id := WriteUpsert(s.trips[id], c.upsert)]), Accepted)
  {
    var t := WriteUpsert(s.trips[id], c.upsert);
    assert LegLegal(t.leftHomeAt, t.arrivedAt, t.attempts[c.upsert.legId]);
  }

  /** The server takes a change or an attempt that fits. */
  lemma WriteTakes(s: Server, claims: Claims, samples: Samples, late: set<TripKey>, r: Request, c: Command, k: TripKey)
    requires ServerInv(s, claims, samples, late) && CommandOk(claims, samples, c) && RequestOf(s, r, c, k) && k !in late
    requires c.UpdateTrip? || c.UpsertAttempt?
    requires r.id in s.trips && Fits(TripOf(s, k), c, k)
    ensures var (s', reply) := Serve(s, r);
            reply == Accepted && Takes(s, s', c, k, Shared(samples), late) && Bears(s', r.id, k)
  {
    hide ServerInv, Untouched, TripLegal, WritePatch, WriteUpsert, RowsOf, ServeUpdate, ServeUpsert, TripOf;
    ServeApart(s, claims, samples, late, r, c, k);
    TripOfId(s, claims, samples, late, r.id);
    var t := if c.UpdateTrip? then WritePatch(s.trips[r.id], c.patch) else WriteUpsert(s.trips[r.id], c.upsert);
    if c.UpdateTrip? {
      UpdateServed(s, claims, samples, late, r.id, c);
    } else {
      UpsertServed(s, r.id, c);
    }
    BornStays(s.trips[r.id], c, k);
    WriteRow(s, Serve(s, r).0, claims, samples, late, r.id, t, k);
  }

  lemma BornStays(t: TripRec, c: Command, k: TripKey)
    ensures c.UpdateTrip? ==> WritePatch(t, c.patch).born == t.born
    ensures c.UpsertAttempt? ==> WriteUpsert(t, c.upsert).born == t.born
  {
  }

  lemma CreateTakes(s: Server, claims: Claims, samples: Samples, late: set<TripKey>, c: Command)
    requires ServerInv(s, claims, samples, late) && CommandOk(claims, samples, c) && c.CreateTrip? && c.key !in late
    requires Fits(TripOf(s, c.key), c, c.key)
    ensures var (s', reply) := ServeCreate(s, c.key.routeId, c.tripDate, c.key.leftHomeAt);
            && reply.Created? && Bears(s', reply.id, c.key) && Takes(s, s', c, c.key, Shared(samples), late)
  {
    hide ServerInv, Untouched, TripOf, RowsOf, ServeCreate;
    var k := c.key;
    var s' := ServeCreate(s, k.routeId, c.tripDate, k.leftHomeAt).0;
    CreateApart(s, claims, samples, late, c, k);
    ApartIsUntouched(s, s', claims, samples, late, k);
    NoTrip(s, k);
    if exists id :: Holds(s, id, k.routeId, k.leftHomeAt) {
      HeldIsOwn(s, claims, samples, late, k);
    } else {
      NewIsOnly(s, s', claims, samples, late, k, c.tripDate);
    }
  }

  lemma HeldIsOwn(s: Server, claims: Claims, samples: Samples, late: set<TripKey>, k: TripKey)
    requires ServerInv(s, claims, samples, late) && Known(claims, k)
    requires exists id :: Holds(s, id, k.routeId, k.leftHomeAt)
    ensures TripOf(s, k).Some?
  {
    var id :| Holds(s, id, k.routeId, k.leftHomeAt);
    assert Claimed(claims, k.routeId, k.leftHomeAt, s.trips[id].born);
    assert Bears(s, id, k);
  }

  lemma NewIsOnly(s: Server, s': Server, claims: Claims, samples: Samples, late: set<TripKey>, k: TripKey, date: int)
    requires ServerInv(s, claims, samples, late) && ServerInv(s', claims, samples, late) && k !in late
    requires s' == s.(trips := s.trips[s.nextId := FreshTrip(k, date)], nextId := s.nextId + 1)
    requires TripOf(s, k).None? || TripOf(s, k).value == FreshTrip(k, date)
    requires !exists id :: Holds(s, id, k.routeId, k.leftHomeAt)
    ensures TripOf(s, k).None? && TripOf(s', k) == Some(FreshTrip(k, date)) && RowsOf(s', k) == RowsOf(s, k)
  {
    if id :| Bears(s, id, k) {
      TripOfId(s, claims, samples, late, id);
      assert Holds(s, id, k.routeId, k.leftHomeAt);
    }
    NoTrip(s, k);
    TripOfId(s', claims, samples, late, s.nextId);
    forall t ensures !RowOf(s', t, k) {}
  }

  lemma {:induction false} InsertedRows(s: Server, id: int, points: seq<GpsPoint>, k: TripKey, shared: set<Time>)
    requires id in s.trips && s.trips[id].born == k
    requires forall p :: p in points && p.recordedAt in s.gps && p.recordedAt !in shared ==> RowOf(s, p.recordedAt, k)
    ensures OwnRows(s.(gps := InsertPoints(s.gps, Some(id), points)), k, shared)
            == AddPoints(OwnRows(s, k, shared), points, shared)
    decreases |points|
  {
    if points == [] {
      assert s.(gps := InsertPoints(s.gps, Some(id), points)) == s;
    } else {
      var front := points[..|points| - 1];
      var p := points[|points| - 1];
      assert p in points;
      InsertedRows(s, id, front, k, shared);
      InsertedKeys(s.gps, Some(id), front);
      var mid := s.(gps := InsertPoints(s.gps, Some(id), front));
      var after := s.(gps := InsertPoints(s.gps, Some(id), points));
      InsertedLast(mid, after, id, p, k, shared);
    }
  }

  lemma InsertedLast(mid: Server, after: Server, id: int, p: GpsPoint, k: TripKey, shared: set<Time>)
    requires id in mid.trips && mid.trips[id].born == k
    requires after == if p.recordedAt in mid.gps then mid else mid.(gps := mid.gps[p.recordedAt := GpsRow(Some(id), p)])
    requires p.recordedAt in mid.gps && p.recordedAt !in shared ==> RowOf(mid, p.recordedAt, k)
    ensures var rest := OwnRows(mid, k, shared);
            OwnRows(after, k, shared)
            == if p.recordedAt in shared || p.recordedAt in rest then rest else rest[p.recordedAt := p]
  {
    forall t ensures RowOf(after, t, k) <==> RowOf(mid, t, k) || (t == p.recordedAt && t !in mid.gps) {}
  }

  lemma UploadTakes(s: Server, claims: Claims, samples: Samples, late: set<TripKey>, id: int, c: Command, k: TripKey)
    requires ServerInv(s, claims, samples, late) && CommandOk(claims, samples, c) && c.UploadGps? && c.owner == Some(k)
    requires id in s.trips && s.trips[id].born == k && k !in late
    ensures var (s', reply) := ServeUpload(s, Some(id), c.points);
            reply == Accepted && Takes(s, s', c, k, Shared(samples), late) && s'.trips == s.trips
  {
    hide TripLegal, Untouched, InsertPoints, AddPoints, Shared, OwnRows, BatchValid;
    var s' := ServeUpload(s, Some(id), c.points).0;
    UploadApart(s, claims, samples, late, id, c, k);
    ApartIsUntouched(s, s', claims, samples, late, k);
    forall p | p in c.points && p.recordedAt in s.gps && p.recordedAt !in Shared(samples) ensures RowOf(s, p.recordedAt, k) {
      SharedMeans(samples, p.recordedAt, s.trips[s.gps[p.recordedAt].tripId.value].born, k);
    }
    InsertedRows(s, id, c.points, k, Shared(samples));
    SameTrip(s, s', claims, samples, late, k);
  }

  lemma DeleteTakes(s: Server, claims: Claims, samples: Samples, late: set<TripKey>, id: int, c: Command)
    requires ServerInv(s, claims, samples, late) && c.DeleteTrip? && id in s.trips && s.trips[id].born == c.key
    requires c.key !in late
    ensures var (s', reply) := ServeDelete(s, id);
            reply == Accepted && Takes(s, s', c, c.key, Shared(samples), late) && id !in s'.trips
  {
    hide TripLegal, Untouched;
    var s' := ServeDelete(s, id).0;
    DeleteApart(s, claims, samples, late, id, c, c.key);
    ApartIsUntouched(s, s', claims, samples, late, c.key);
    NoTrip(s', c.key);
  }
}
