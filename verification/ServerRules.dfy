/** The backend's rules for trips, attempts and GPS points, request by request: what is taken, what is kept, and that no
    order of requests leaves a record that contradicts itself (CommuteTripService.kt, GpsTraceService.kt). */
module ServerRules {
  import opened Basics
  import opened Commands
  import opened TripServer
  import opened ServerLaws

  // ---- what a consistent server holds ------------------------------------------------------------

  predicate NotBefore(earlier: Option<Time>, later: Option<Time>) {
    earlier.Some? && later.Some? ==> later.value >= earlier.value
  }

  /** The time, if known, lies between departure and arrival, as far as that is known. */
  predicate During(t: TripRec, at: Option<Time>) {
    NotBefore(Some(t.leftHomeAt), at) && NotBefore(at, t.arrivedAt)
  }

  predicate TimesFit(t: TripRec, a: Attempt) {
    During(t, a.arrivedAtStopAt) && During(t, a.departureAt) && During(t, a.alightedAt)
  }

  /** No contradiction in the attempts of a leg: at most 20, each within the trip, nobody alights before the departure,
      and a later vehicle leaves no earlier. */
  ghost predicate Consistent(t: TripRec, list: seq<Attempt>) {
    && |list| <= 20
    && (forall i :: 0 <= i < |list| ==> TimesFit(t, list[i]) && NotBefore(list[i].departureAt, list[i].alightedAt))
    && forall i, j :: 0 <= i < j < |list| ==> NotBefore(list[i].departureAt, list[j].departureAt)
  }

  ghost predicate RecordConsistent(t: TripRec) {
    NotBefore(Some(t.leftHomeAt), t.arrivedAt) && forall leg :: leg in t.attempts ==> Consistent(t, t.attempts[leg])
  }

  /** Two trips of a route never left at the same instant, and ids are not given twice. */
  ghost predicate ServerConsistent(s: Server) {
    && (forall id :: id in s.trips ==> id < s.nextId && RecordConsistent(s.trips[id]))
    && forall a, b :: a in s.trips && b in s.trips && a != b && s.trips[a].born.routeId == s.trips[b].born.routeId ==>
         s.trips[a].leftHomeAt != s.trips[b].leftHomeAt
  }

  lemma ConsistentIsLegal(t: TripRec, list: seq<Attempt>)
    ensures Consistent(t, list) <==> LegLegal(t.leftHomeAt, t.arrivedAt, list)
  {
    forall a ensures TimesFit(t, a) <==> WithinTrip(t.leftHomeAt, t.arrivedAt, a) {
    }
    hide TimesFit, WithinTrip;
  }

  // ---- trips -------------------------------------------------------------------------------------

  /** The trip of the route that left at that instant. */
  predicate IsTripOf(s: Server, id: int, routeId: int, left: Time) {
    id in s.trips && s.trips[id].born.routeId == routeId && s.trips[id].leftHomeAt == left
  }

  /** A create finds the trip of its route and departure, or makes one without attempts; it is refused exactly when that
      trip has another date. */
  lemma CreateMeans(s: Server, routeId: int, date: int, left: Time)
    requires ServerConsistent(s)
    ensures var (s', reply) := Serve(s, CreateReq(routeId, date, left));
            && s'.gps == s.gps
            && (forall id :: IsTripOf(s, id, routeId, left) ==>
                  s' == s && reply == if s.trips[id].tripDate == date then Created(id) else Refused(409))
            && ((forall id :: !IsTripOf(s, id, routeId, left)) ==>
                  && reply.Created? && reply.id !in s.trips && reply.id in s'.trips && s'.trips - {reply.id} == s.trips
                  && IsTripOf(s', reply.id, routeId, left) && s'.trips[reply.id].tripDate == date
                  && s'.trips[reply.id].arrivedAt.None? && s'.trips[reply.id].attempts == map[])
  {
    hide RecordConsistent;
    assert forall id :: IsTripOf(s, id, routeId, left) <==> Holds(s, id, routeId, left);
    if id :| Holds(s, id, routeId, left) {
      assert forall other :: Holds(s, other, routeId, left) ==> other == id;
    } else {
      var s' := Serve(s, CreateReq(routeId, date, left)).0;
      assert s.nextId !in s.trips;
      assert s'.trips - {s.nextId} == s.trips;
    }
  }

  /** What the row would be. */
  function Patched(t: TripRec, p: TripPatch): TripRec {
    TripRec(t.born, t.tripDate, if p.leftHomeAt.Some? then p.leftHomeAt.value else t.leftHomeAt,
            if p.arrivedAt.Some? then p.arrivedAt else t.arrivedAt, t.attempts)
  }

  ghost predicate TimesStillFit(t: TripRec) {
    && NotBefore(Some(t.leftHomeAt), t.arrivedAt)
    && forall leg, i :: leg in t.attempts && 0 <= i < |t.attempts[leg]| ==> TimesFit(t, t.attempts[leg][i])
  }

  /** A change is taken exactly when the trip is known, its arrival is not before its departure, all its attempts still
      lie between them, and no other trip of the route left at that instant. It changes what it names and no more. */
  lemma UpdateMeans(s: Server, id: int, p: TripPatch)
    requires ServerConsistent(s)
    ensures var (s', reply) := Serve(s, UpdateReq(id, p));
            if id !in s.trips then (s', reply) == (s, Refused(404))
            else
              var t := Patched(s.trips[id], p);
              if !TimesStillFit(t) then (s', reply) == (s, Refused(400))
              else if exists other :: other != id && IsTripOf(s, other, t.born.routeId, t.leftHomeAt)
              then (s', reply) == (s, Refused(409))
              else (s', reply) == (s.(trips := s.trips[id := t]), Accepted)
  {
    hide RecordConsistent;
    if id in s.trips {
      var t := Patched(s.trips[id], p);
      assert t == WritePatch(s.trips[id], p);
      forall a ensures TimesFit(t, a) <==> WithinTrip(t.leftHomeAt, t.arrivedAt, a) {
      }
      hide TimesFit, WithinTrip;
      assert forall other ::
          IsTripOf(s, other, t.born.routeId, t.leftHomeAt) <==> Holds(s, other, t.born.routeId, t.leftHomeAt);
      if TimesStillFit(t) {
        assert forall leg, i :: leg in t.attempts && 0 <= i < |t.attempts[leg]| ==>
                 WithinTrip(t.leftHomeAt, t.arrivedAt, t.attempts[leg][i]);
      }
    }
  }

  // ---- attempts ----------------------------------------------------------------------------------

  /** An attempt with what the request names changed. */
  function Changed(a: Attempt, u: Upsert): Attempt {
    Attempt(if u.arrivedAtStopAt.Some? then u.arrivedAtStopAt else a.arrivedAtStopAt,
            if u.scheduledAt.Some? then u.scheduledAt else a.scheduledAt,
            if u.departureAt.Some? then u.departureAt else a.departureAt,
            if u.alightedAt.Some? then u.alightedAt else a.alightedAt,
            if u.result.Some? then u.result.value else a.result,
            if u.notes.Some? then u.notes else a.notes)
  }

  /** Attempt `n` changed, or made as the next one. */
  function ChangedAt(list: seq<Attempt>, n: int, u: Upsert): seq<Attempt>
    requires 1 <= n <= |list| + 1
  {
    if n <= |list| then list[n - 1 := Changed(list[n - 1], u)]
    else list + [Changed(Attempt(None, None, None, None, Unknown, None), u)]
  }

  function AttemptsOf(t: TripRec, leg: int): seq<Attempt> {
    if leg in t.attempts then t.attempts[leg] else []
  }

  /** An attempt is taken exactly when its number is one of the leg's or the next, and the leg then is without a
      contradiction. It changes that attempt only, and in it only what the request names. */
  lemma UpsertMeans(s: Server, id: int, u: Upsert)
    requires ServerConsistent(s)
    ensures var (s', reply) := Serve(s, UpsertReq(id, u));
            var n := if u.attemptSeq.Some? then u.attemptSeq.value else 1;
            if 1 <= n <= 20 && id !in s.trips then (s', reply) == (s, Refused(404))
            else if id in s.trips && 1 <= n <= |AttemptsOf(s.trips[id], u.legId)| + 1
                    && Consistent(s.trips[id], ChangedAt(AttemptsOf(s.trips[id], u.legId), n, u))
            then
              var t := s.trips[id];
              && reply == Accepted
              && s' == s.(trips := s.trips[id := t.(attempts := t.attempts[u.legId := ChangedAt(AttemptsOf(t, u.legId), n, u)])])
            else (s', reply) == (s, Refused(400))
  {
    var n := u.Seq();
    if id in s.trips && 1 <= n <= |AttemptsOf(s.trips[id], u.legId)| + 1 {
      var t := s.trips[id];
      var list := AttemptsOf(t, u.legId);
      var list' := ChangedAt(list, n, u);
      assert Consistent(t, list);
      assert list' == WriteList(list, u);
      ChangedConsistent(t, list, n, u);
      AttemptFits(t, list'[n - 1]);
      hide Consistent, TimesFit, WithinTrip, ChangedAt, RecordConsistent, WriteList, DeparturesInOrder, AlightsAfterDeparture;
      assert WriteUpsert(t, u).On(u.legId) == list';
      assert WriteUpsert(t, u) == t.(attempts := t.attempts[u.legId := list']);
    }
  }

  lemma AttemptFits(t: TripRec, a: Attempt)
    ensures TimesFit(t, a) <==> WithinTrip(t.leftHomeAt, t.arrivedAt, a)
    ensures NotBefore(a.departureAt, a.alightedAt) <==> AlightsAfterDeparture(a)
  {
  }

  /** Only the changed attempt and the order of departures need a look. */
  lemma ChangedConsistent(t: TripRec, list: seq<Attempt>, n: int, u: Upsert)
    requires Consistent(t, list) && 1 <= n <= |list| + 1
    ensures var list' := ChangedAt(list, n, u);
            Consistent(t, list') <==>
            n <= 20 && AlightsAfterDeparture(list'[n - 1]) && TimesFit(t, list'[n - 1]) && DeparturesInOrder(list')
  {
    hide TimesFit, Changed;
    var list' := ChangedAt(list, n, u);
    assert forall i :: 0 <= i < |list| && i != n - 1 ==> list'[i] == list[i];
  }

  // ---- points ------------------------------------------------------------------------------------

  predicate PointInRange(p: GpsPoint) {
    && -90.0 <= p.lat <= 90.0 && -180.0 <= p.lng <= 180.0
    && (p.speed.Some? ==> 0.0 <= p.speed.value) && (p.accuracy.Some? ==> 0.0 <= p.accuracy.value)
  }

  /** The first point of its instant in the batch. */
  predicate IsFirstAt(points: seq<GpsPoint>, i: nat, t: Time) {
    i < |points| && points[i].recordedAt == t && forall j :: 0 <= j < i ==> points[j].recordedAt != t
  }

  /** A batch is taken exactly when it has 1 to 500 points in range and its trip, if it names one, is known. Each instant
      keeps the row that it had, or gets the first point of the batch at that instant; there are no other rows. */
  lemma UploadMeans(s: Server, owner: Option<int>, points: seq<GpsPoint>)
    ensures var (s', reply) := Serve(s, UploadReq(owner, points));
            if !(1 <= |points| <= 500 && forall p :: p in points ==> PointInRange(p)) then (s', reply) == (s, Refused(400))
            else if owner.Some? && owner.value !in s.trips then (s', reply) == (s, Refused(404))
            else
              && reply == Accepted && s' == s.(gps := s'.gps)
              && (forall t :: t in s'.gps <==> t in s.gps || exists i: nat :: IsFirstAt(points, i, t))
              && (forall t :: t in s.gps ==> s'.gps[t] == s.gps[t])
              && forall t, i: nat :: t !in s.gps && IsFirstAt(points, i, t) ==> s'.gps[t] == GpsRow(owner, points[i])
  {
    assert BatchValid(points) <==> 1 <= |points| <= 500 && forall p :: p in points ==> PointInRange(p);
    if BatchValid(points) {
      InsertedKeys(s.gps, owner, points);
      forall t, i: nat | IsFirstAt(points, i, t)
        ensures t in InsertPoints(s.gps, owner, points)
        ensures t !in s.gps ==> InsertPoints(s.gps, owner, points)[t] == GpsRow(owner, points[i])
      {
        UploadKeepsFirst(s.gps, owner, points, i);
      }
      hide InsertPoints;
      forall t | t in InsertPoints(s.gps, owner, points) && t !in s.gps ensures exists i: nat :: IsFirstAt(points, i, t) {
        var i := FirstAt(points, t);
      }
    }
  }

  lemma {:induction false} FirstAt(points: seq<GpsPoint>, t: Time) returns (i: nat)
    requires exists p :: p in points && p.recordedAt == t
    ensures IsFirstAt(points, i, t)
  {
    if points[0].recordedAt == t {
      i := 0;
    } else {
      assert points == [points[0]] + points[1..];
      var k := FirstAt(points[1..], t);
      i := k + 1;
      forall j | 0 <= j < i ensures points[j].recordedAt != t {
        assert j > 0 ==> points[j] == points[1..][j - 1];
      }
    }
  }

  /** A delete is taken exactly when the trip is known; its record and its points are gone, and nothing else is. */
  lemma DeleteMeans(s: Server, id: int)
    ensures var (s', reply) := Serve(s, DeleteReq(id));
            if id !in s.trips then (s', reply) == (s, Refused(404))
            else
              && reply == Accepted && s'.nextId == s.nextId
              && (forall other :: other in s'.trips <==> other in s.trips && other != id)
              && (forall other :: other in s'.trips ==> s'.trips[other] == s.trips[other])
              && (forall t :: t in s'.gps <==> t in s.gps && s.gps[t].tripId != Some(id))
              && forall t :: t in s'.gps ==> s'.gps[t] == s.gps[t]
  {
  }

  // ---- every order of requests -------------------------------------------------------------------

  ghost function After(s: Server, requests: seq<Request>): Server {
    if requests == [] then s else Serve(After(s, requests[..|requests| - 1]), requests[|requests| - 1]).0
  }

  /** Whatever is asked, in whatever order, no record contradicts itself and no two trips of a route left at the same
      instant. */
  lemma {:induction false} NoOrderContradicts(s: Server, requests: seq<Request>)
    requires ServerConsistent(s)
    ensures ServerConsistent(After(s, requests))
  {
    if requests != [] {
      hide ServerConsistent, Serve;
      NoOrderContradicts(s, requests[..|requests| - 1]);
      StaysConsistent(After(s, requests[..|requests| - 1]), requests[|requests| - 1]);
    }
  }

  lemma StaysConsistent(s: Server, r: Request)
    requires ServerConsistent(s)
    ensures ServerConsistent(Serve(s, r).0)
  {
    var s' := Serve(s, r).0;
    match r
    case CreateReq(routeId, date, left) => CreateStaysConsistent(s, routeId, date, left);
    case UpdateReq(id, p) => UpdateStaysConsistent(s, id, p);
    case UpsertReq(id, u) => UpsertStaysConsistent(s, id, u);
    case UploadReq(owner, points) => UploadMeans(s, owner, points); hide RecordConsistent, Serve;
    case DeleteReq(id) => DeleteMeans(s, id); hide RecordConsistent, Serve;
  }

  lemma CreateStaysConsistent(s: Server, routeId: int, date: int, left: Time)
    requires ServerConsistent(s)
    ensures ServerConsistent(Serve(s, CreateReq(routeId, date, left)).0)
  {
    FreshIsConsistent(TripKey(routeId, left), date);
    hide RecordConsistent;
    forall a | a in s.trips && s.trips[a].born.routeId == routeId && s.trips[a].leftHomeAt == left
      ensures Holds(s, a, routeId, left)
    {
    }
  }

  lemma FreshIsConsistent(key: TripKey, date: int)
    ensures RecordConsistent(FreshTrip(key, date))
  {
  }

  lemma UpdateStaysConsistent(s: Server, id: int, p: TripPatch)
    requires ServerConsistent(s)
    ensures ServerConsistent(Serve(s, UpdateReq(id, p)).0)
  {
    UpdateMeans(s, id, p);
    if id in s.trips {
      var t := Patched(s.trips[id], p);
      if TimesStillFit(t) {
        PatchedIsConsistent(s.trips[id], p);
      }
      hide RecordConsistent, Serve, TimesStillFit;
      forall a | a in s.trips && a != id && s.trips[a].born.routeId == t.born.routeId && s.trips[a].leftHomeAt == t.leftHomeAt
        ensures IsTripOf(s, a, t.born.routeId, t.leftHomeAt)
      {
      }
    }
  }

  lemma PatchedIsConsistent(t: TripRec, p: TripPatch)
    requires RecordConsistent(t) && TimesStillFit(Patched(t, p))
    ensures RecordConsistent(Patched(t, p))
  {
    var t' := Patched(t, p);
    hide TimesFit;
    forall leg | leg in t'.attempts ensures Consistent(t', t'.attempts[leg]) {
      assert Consistent(t, t.attempts[leg]);
    }
  }

  lemma UpsertStaysConsistent(s: Server, id: int, u: Upsert)
    requires ServerConsistent(s)
    ensures ServerConsistent(Serve(s, UpsertReq(id, u)).0)
  {
    UpsertMeans(s, id, u);
    hide Serve, ChangedAt;
    var n := if u.attemptSeq.Some? then u.attemptSeq.value else 1;
    if id in s.trips && 1 <= n <= |AttemptsOf(s.trips[id], u.legId)| + 1 {
      var t := s.trips[id];
      var list' := ChangedAt(AttemptsOf(t, u.legId), n, u);
      if Consistent(t, list') {
        LegChanged(t, u.legId, list');
        hide RecordConsistent, Consistent;
      }
    }
  }

  lemma LegChanged(t: TripRec, leg: int, list: seq<Attempt>)
    requires RecordConsistent(t) && Consistent(t, list)
    ensures RecordConsistent(t.(attempts := t.attempts[leg := list]))
  {
    var t' := t.(attempts := t.attempts[leg := list]);
    forall l | l in t'.attempts ensures Consistent(t', t'.attempts[l]) {
      SameBounds(t, t', t'.attempts[l]);
    }
  }

  lemma SameBounds(t: TripRec, t': TripRec, list: seq<Attempt>)
    requires t'.leftHomeAt == t.leftHomeAt && t'.arrivedAt == t.arrivedAt
    ensures Consistent(t', list) <==> Consistent(t, list)
  {
    forall a ensures TimesFit(t', a) <==> TimesFit(t, a) {
    }
    hide TimesFit;
  }
}
