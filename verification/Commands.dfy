/** The write commands that the recorder puts in the outbox, the natural keys they carry, and the
    rule that folds a newer command into one that is still waiting (OutboxCommand.swift). */
module Commands {
  import opened Basics

  datatype TripKey = TripKey(routeId: int, leftHomeAt: Time)

  datatype BoardingResult = Caught | Missed | Unknown

  datatype Upsert = Upsert(
    legId: int,
    attemptSeq: Option<int>,
    arrivedAtStopAt: Option<Time>,
    scheduledAt: Option<Time>,
    departureAt: Option<Time>,
    alightedAt: Option<Time>,
    result: Option<BoardingResult>,
    notes: Option<string>)
  {
    /** An upsert without a number means the first attempt. */
    function Seq(): int {
      if attemptSeq.Some? then attemptSeq.value else 1
    }

    predicate SameAttempt(other: Upsert) {
      legId == other.legId && Seq() == other.Seq()
    }

    function MergedWith(newer: Upsert): Upsert {
      Upsert(
        legId,
        OrElse(newer.attemptSeq, attemptSeq),
        OrElse(newer.arrivedAtStopAt, arrivedAtStopAt),
        OrElse(newer.scheduledAt, scheduledAt),
        OrElse(newer.departureAt, departureAt),
        OrElse(newer.alightedAt, alightedAt),
        OrElse(newer.result, result),
        OrElse(newer.notes, notes))
    }
  }

  /** An upsert that names an attempt and carries no value yet. */
  function BareUpsert(legId: int, attemptSeq: int): Upsert {
    Upsert(legId, Some(attemptSeq), None, None, None, None, None, None)
  }

  datatype TripPatch = TripPatch(leftHomeAt: Option<Time>, arrivedAt: Option<Time>) {
    function MergedWith(newer: TripPatch): TripPatch {
      TripPatch(OrElse(newer.leftHomeAt, leftHomeAt), OrElse(newer.arrivedAt, arrivedAt))
    }
  }

  datatype GpsPoint = GpsPoint(
    recordedAt: Time, lat: real, lng: real, speed: Option<real>, accuracy: Option<real>)

  datatype Command =
    | CreateTrip(key: TripKey, tripDate: int)
    | UpdateTrip(key: TripKey, patch: TripPatch)
    | UpsertAttempt(key: TripKey, upsert: Upsert)
    | UploadGps(owner: Option<TripKey>, points: seq<GpsPoint>)
    | DeleteTrip(key: TripKey)
  {
    function TripKeyOf(): Option<TripKey> {
      if UploadGps? then owner else Some(key)
    }

    predicate Of(k: TripKey) {
      TripKeyOf() == Some(k)
    }

    function LaneOf(): Lane {
      if UploadGps? then GpsLane(owner) else RecordLane(key)
    }
  }

  /** Commands of one lane leave in the order they were put in. */
  datatype Lane = RecordLane(key: TripKey) | GpsLane(owner: Option<TripKey>)
}
