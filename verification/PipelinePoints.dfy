/** From the location service to the server's rows: what becomes of the samples accepted for a trip. */
module PipelinePoints {
  import opened Basics
  import opened Commands
  import opened CommandFold
  import opened TripViews
  import opened Link
  import opened LinkSubmit
  import opened Pipeline
  import opened PipelineRuns
  import opened PipelineTrips
  import opened RecorderFacts

  /** Sample `i` is the first of its instant. */
  predicate FirstAt(points: seq<GpsPoint>, i: nat)
    requires i < |points|
  {
    forall j :: 0 <= j < i ==> points[j].recordedAt != points[i].recordedAt
  }

  /** Rows that keep the first point of each instant are fixed by the points in order. */
  lemma {:induction false} FirstPointStays(points: seq<GpsPoint>, i: nat)
    requires i < |points| && FirstAt(points, i)
    ensures var rows := AddPoints(map[], points, {});
            points[i].recordedAt in rows && rows[points[i].recordedAt] == points[i]
  {
    var front := points[..|points| - 1];
    AddedKeys(map[], front, {});
    if i < |front| {
      FirstPointStays(front, i);
    }
  }

  lemma {:induction false} LoggedRows(log: seq<Command>, k: TripKey)
    requires DeleteTrip(k) !in log
    ensures IdealRows(log, k) == AddPoints(map[], PointsFor(log, k), {})
  {
    if log != [] {
      var front, c := log[..|log| - 1], log[|log| - 1];
      assert log == front + [c];
      LoggedRows(front, k);
      FoldLast(RowWriter(k, {}), (rows: map<Time, GpsPoint>, x: Command) => true, map[], front, c);
      hide Fold, AddPoints;
      PointsOfOne(front, c, k);
      if c.UploadGps? && c.Of(k) {
        AddPointsSplit(map[], PointsFor(front, k), c.points, {});
      } else {
        assert PointsFor(front, k) + [] == PointsFor(front, k);
      }
    }
  }

  /** Over every run, once a trip is over and nothing of it is queued, if it was neither cancelled nor given up and nothing
      of it landed late: apart from instants that another trip sampled too, the server's rows of the trip are its accepted
      samples, the first of each instant; none is lost, none is made up and none belongs to another trip. */
  lemma RowsAreAcceptedSamples(states: seq<System>, steps: seq<Step>, k: TripKey)
    requires IsRun(states, steps) && Finished(Last(states).link, k) && !ActiveKey(Last(states).recorder, k)
    requires DeleteTrip(k) !in Recorded(states, steps) && k !in GaveUp(states, steps) && k !in Late(states, steps)
    ensures var shared := Shared(SampledIn(Recorded(states, steps)));
            var accepted := AllAccepted(states, steps, k);
            var rows := RowsOf(Last(states).link.server, k);
            && (forall i :: 0 <= i < |accepted| && accepted[i].recordedAt !in shared && FirstAt(accepted, i) ==>
                  accepted[i].recordedAt in rows && rows[accepted[i].recordedAt] == accepted[i])
            && (forall t :: t in rows && t !in shared ==> exists p :: p in accepted && p.recordedAt == t)
  {
    hide Inv, TripOf, RowsOf, Do, MayDo, GaveUp, Late, RecordedBy, SysInv, Shared, SampledIn, IdealRows, PointsFor;
    DrainedMeansRecorded(states, steps, k);
    SamplesConserved(states, steps, k);
    var log, accepted := Recorded(states, steps), AllAccepted(states, steps, k);
    assert PointsFor(log, k) == accepted by {
      assert PointsFor(log, k) + [] == PointsFor(log, k);
    }
    LoggedRows(log, k);
    RowsArePoints(RowsOf(Last(states).link.server, k), accepted, Shared(SampledIn(log)));
  }

  lemma RowsArePoints(rows: map<Time, GpsPoint>, points: seq<GpsPoint>, shared: set<Time>)
    requires rows - shared == AddPoints(map[], points, {}) - shared
    ensures forall i :: 0 <= i < |points| && points[i].recordedAt !in shared && FirstAt(points, i) ==>
              points[i].recordedAt in rows && rows[points[i].recordedAt] == points[i]
    ensures forall t :: t in rows && t !in shared ==> exists p :: p in points && p.recordedAt == t
  {
    hide AddPoints;
    var added := AddPoints(map[], points, {});
    AddedKeys(map[], points, {});
    forall i | 0 <= i < |points| && points[i].recordedAt !in shared && FirstAt(points, i)
      ensures points[i].recordedAt in rows && rows[points[i].recordedAt] == points[i]
    {
      FirstPointStays(points, i);
      assert points[i].recordedAt in added - shared;
      assert points[i].recordedAt in rows - shared;
    }
    forall t | t in rows && t !in shared ensures exists p :: p in points && p.recordedAt == t {
      assert t in rows - shared;
      assert t in added - shared;
    }
  }
}
