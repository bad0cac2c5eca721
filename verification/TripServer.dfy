/** The documented range and order rules of the backend for the requests of the outbox (CommuteTripService.kt,
    GpsTraceService.kt): natural keys absorb resends, absent fields are left alone, and the rules are checked before
    anything is kept. The check that a leg is on the trip's route and the schedule times that the backend fills in from
    its own predictions are not part of it. */
module TripServer {
  import opened Basics
  import opened Commands

  const MAX_ATTEMPT_SEQ := 20
  const MAX_GPS_POINTS := 500

  datatype Attempt = Attempt(
    arrivedAtStopAt: Option<Time>,
    scheduledAt: Option<Time>,
    departureAt: Option<Time>,
    alightedAt: Option<Time>,
    result: BoardingResult,
    notes: Option<string>)

  /** A trip row with its attempts; attempt number n of a leg is element n - 1 of that leg's list.
      `born` is the natural key of the request that created the row; the decisions below read only its route. */
  datatype TripRec = TripRec(
    born: TripKey,
    tripDate: int,
    leftHomeAt: Time,
    arrivedAt: Option<Time>,
    attempts: map<int, seq<Attempt>>)
  {
    function On(legId: int): seq<Attempt> {
      if legId in attempts then attempts[legId] else []
    }
  }

  function FreshTrip(key: TripKey, tripDate: int): TripRec {
    TripRec(key, tripDate, key.leftHomeAt, None, map[])
  }

  datatype GpsRow = GpsRow(tripId: Option<int>, point: GpsPoint)

  datatype Server = Server(trips: map<int, TripRec>, gps: map<Time, GpsRow>, nextId: int)

  datatype Request =
    | CreateReq(routeId: int, tripDate: int, leftHomeAt: Time)
    | UpdateReq(id: int, patch: TripPatch)
    | UpsertReq(id: int, upsert: Upsert)
    | UploadReq(owner: Option<int>, points: seq<GpsPoint>)
    | DeleteReq(id: int)

  datatype Reply = Created(id: int) | Accepted | Refused(status: int)

  // ---- field writes ----------------------------------------------------------------------------

  const BlankAttempt := Attempt(None, None, None, None, Unknown, None)

  function WriteAttempt(a: Attempt, u: Upsert): Attempt {
    Attempt(
      OrElse(u.arrivedAtStopAt, a.arrivedAtStopAt),
      OrElse(u.scheduledAt, a.scheduledAt),
      OrElse(u.departureAt, a.departureAt),
      OrElse(u.alightedAt, a.alightedAt),
      if u.result.Some? then u.result.value else a.result,
      OrElse(u.notes, a.notes))
  }

  /** The attempt numbers a leg with `count` attempts can take: an existing one or the next. */
  predicate Numbered(u: Upsert, count: nat) {
    1 <= u.Seq() <= count + 1
  }

  function WriteList(list: seq<Attempt>, u: Upsert): (r: seq<Attempt>)
    ensures Numbered(u, |list|) ==> |r| == if u.Seq() == |list| + 1 then |list| + 1 else |list|
  {
    if !Numbered(u, |list|) then list
    else if u.Seq() == |list| + 1 then list + [WriteAttempt(BlankAttempt, u)]
    else list[u.Seq() - 1 := WriteAttempt(list[u.Seq() - 1], u)]
  }

  function WriteUpsert(t: TripRec, u: Upsert): TripRec {
    if Numbered(u, |t.On(u.legId)|)
    then t.(attempts := t.attempts[u.legId := WriteList(t.On(u.legId), u)])
    else t
  }

  function WritePatch(t: TripRec, p: TripPatch): TripRec {
    t.(leftHomeAt := if p.leftHomeAt.Some? then p.leftHomeAt.value else t.leftHomeAt,
       arrivedAt := OrElse(p.arrivedAt, t.arrivedAt))
  }

  /** GPS rows keep the first point of an instant. */
  function InsertPoints(gps: map<Time, GpsRow>, owner: Option<int>, points: seq<GpsPoint>): map<Time, GpsRow> {
    if points == [] then gps
    else
      var rest := InsertPoints(gps, owner, points[..|points| - 1]);
      var p := points[|points| - 1];
      if p.recordedAt in rest then rest else rest[p.recordedAt := GpsRow(owner, p)]
  }

  // ---- rules -----------------------------------------------------------------------------------

  predicate Ordered(earlier: Option<Time>, later: Option<Time>) {
    earlier.Some? && later.Some? ==> earlier.value <= later.value
  }

  predicate WithinTrip(left: Time, arrived: Option<Time>, a: Attempt) {
    && Ordered(Some(left), a.arrivedAtStopAt) && Ordered(a.arrivedAtStopAt, arrived)
    && Ordered(Some(left), a.departureAt) && Ordered(a.departureAt, arrived)
    && Ordered(Some(left), a.alightedAt) && Ordered(a.alightedAt, arrived)
  }

  predicate AlightsAfterDeparture(a: Attempt) {
    Ordered(a.departureAt, a.alightedAt)
  }

  predicate DeparturesInOrder(list: seq<Attempt>) {
    forall i, j :: 0 <= i < j < |list| ==> Ordered(list[i].departureAt, list[j].departureAt)
  }

  /** Every range and order rule of a leg. */
  predicate LegLegal(left: Time, arrived: Option<Time>, list: seq<Attempt>) {
    && |list| <= MAX_ATTEMPT_SEQ
    && (forall i :: 0 <= i < |list| ==> WithinTrip(left, arrived, list[i]) && AlightsAfterDeparture(list[i]))
    && DeparturesInOrder(list)
  }

  /** Every range and order rule of a trip. */
  predicate TripLegal(t: TripRec) {
    && Ordered(Some(t.leftHomeAt), t.arrivedAt)
    && forall leg :: leg in t.attempts ==> LegLegal(t.leftHomeAt, t.arrivedAt, t.attempts[leg])
  }

  predicate PointValid(p: GpsPoint) {
    && -90.0 <= p.lat <= 90.0
    && -180.0 <= p.lng <= 180.0
    && (p.speed.Some? ==> p.speed.value >= 0.0)
    && (p.accuracy.Some? ==> p.accuracy.value >= 0.0)
  }

  predicate BatchValid(points: seq<GpsPoint>) {
    1 <= |points| <= MAX_GPS_POINTS && forall p :: p in points ==> PointValid(p)
  }

  // ---- requests --------------------------------------------------------------------------------

  /** Some row of the route left home at exactly this instant. */
  predicate Holds(s: Server, id: int, routeId: int, leftHomeAt: Time) {
    id in s.trips && s.trips[id].born.routeId == routeId && s.trips[id].leftHomeAt == leftHomeAt
  }

  ghost function ServeCreate(s: Server, routeId: int, tripDate: int, leftHomeAt: Time): (Server, Reply) {
    if exists id :: Holds(s, id, routeId, leftHomeAt) then
      var id :| Holds(s, id, routeId, leftHomeAt);
      if s.trips[id].tripDate != tripDate then (s, Refused(409)) else (s, Created(id))
    else
      (s.(trips := s.trips[s.nextId := FreshTrip(TripKey(routeId, leftHomeAt), tripDate)], nextId := s.nextId + 1),
       Created(s.nextId))
  }

  ghost function ServeUpdate(s: Server, id: int, p: TripPatch): (Server, Reply) {
    if id !in s.trips then (s, Refused(404))
    else
      var t := WritePatch(s.trips[id], p);
      if !Ordered(Some(t.leftHomeAt), t.arrivedAt) then (s, Refused(400))
      else if exists leg, i :: leg in t.attempts && 0 <= i < |t.attempts[leg]|
                               && !WithinTrip(t.leftHomeAt, t.arrivedAt, t.attempts[leg][i]) then (s, Refused(400))
      else if exists other :: other != id && Holds(s, other, t.born.routeId, t.leftHomeAt) then (s, Refused(409))
      else (s.(trips := s.trips[id := t]), Accepted)
  }

  function ServeUpsert(s: Server, id: int, u: Upsert): (Server, Reply) {
    if !(1 <= u.Seq() <= MAX_ATTEMPT_SEQ) then (s, Refused(400))
    else if id !in s.trips then (s, Refused(404))
    else
      var before := s.trips[id];
      if u.Seq() > |before.On(u.legId)| + 1 then (s, Refused(400))
      else
        var t := WriteUpsert(before, u);
        var list := t.On(u.legId);
        var a := list[u.Seq() - 1];
        if !AlightsAfterDeparture(a) then (s, Refused(400))
        else if !WithinTrip(t.leftHomeAt, t.arrivedAt, a) then (s, Refused(400))
        else if !DeparturesInOrder(list) then (s, Refused(400))
        else (s.(trips := s.trips[id := t]), Accepted)
  }

  function ServeUpload(s: Server, owner: Option<int>, points: seq<GpsPoint>): (Server, Reply) {
    if !BatchValid(points) then (s, Refused(400))
    else if owner.Some? && owner.value !in s.trips then (s, Refused(404))
    else (s.(gps := InsertPoints(s.gps, owner, points)), Accepted)
  }

  /** Deleting a trip takes its attempts and its GPS rows along. */
  function ServeDelete(s: Server, id: int): (Server, Reply) {
    if id !in s.trips then (s, Refused(404))
    else
      (s.(trips := s.trips - {id},
          gps := map t | t in s.gps && s.gps[t].tripId != Some(id) :: s.gps[t]), Accepted)
  }

  ghost function Serve(s: Server, r: Request): (Server, Reply) {
    match r
    case CreateReq(routeId, tripDate, leftHomeAt) => ServeCreate(s, routeId, tripDate, leftHomeAt)
    case UpdateReq(id, patch) => ServeUpdate(s, id, patch)
    case UpsertReq(id, upsert) => ServeUpsert(s, id, upsert)
    case UploadReq(owner, points) => ServeUpload(s, owner, points)
    case DeleteReq(id) => ServeDelete(s, id)
  }
}
