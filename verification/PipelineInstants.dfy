/** One instant of the server's GPS rows over whole runs: who keeps it when several trips sampled it. */
module PipelineInstants {
  import opened Basics
  import opened Commands
  import opened TripServer
  import opened ServerLaws
  import opened OutboxModel
  import opened Link
  import opened RecorderModel
  import opened RecorderFacts
  import opened Pipeline
  import opened PipelineRuns
  import opened PipelinePoints

  // ---- one request -------------------------------------------------------------------------------

  /** The server takes the upload, and point `i` is its first at instant `t`. */
  predicate Brings(s: Server, r: Request, t: Time, i: nat) {
    && r.UploadReq? && ServeUpload(s, r.owner, r.points).1 == Accepted
    && i < |r.points| && r.points[i].recordedAt == t && FirstAt(r.points, i)
  }

  lemma {:induction false} FirstIndex(points: seq<GpsPoint>, t: Time) returns (i: nat)
    requires exists p :: p in points && p.recordedAt == t
    ensures i < |points| && points[i].recordedAt == t && FirstAt(points, i)
  {
    var front, last := points[..|points| - 1], points[|points| - 1];
    assert points == front + [last];
    if exists p :: p in front && p.recordedAt == t {
      i := FirstIndex(front, t);
      assert FirstAt(points, i);
    } else {
      i := |front|;
      forall j | 0 <= j < i ensures points[j].recordedAt != t {
        assert front[j] in front;
      }
    }
  }

  /** An instant that is free is taken by the first point of an upload that names it, and by nothing else. */
  lemma FreeInstant(s: Server, r: Request, t: Time)
    requires t !in s.gps
    ensures var after := Serve(s, r).0.gps;
            && (forall i: nat :: Brings(s, r, t, i) ==> t in after && after[t] == GpsRow(r.owner, r.points[i]))
            && (t in after ==> exists i: nat :: Brings(s, r, t, i))
  {
    hide BatchValid, ServeUpdate, ServeUpsert, ServeCreate;
    GpsOnlyByUpload(s, r);
    if r.UploadReq? {
      InsertedKeys(s.gps, r.owner, r.points);
      hide InsertPoints;
      forall i: nat | Brings(s, r, t, i)
        ensures t in Serve(s, r).0.gps && Serve(s, r).0.gps[t] == GpsRow(r.owner, r.points[i])
      {
        UploadKeepsFirst(s.gps, r.owner, r.points, i);
      }
      if t in Serve(s, r).0.gps {
        var i := FirstIndex(r.points, t);
        assert Brings(s, r, t, i);
      }
    }
  }

  lemma GpsOnlyByUpload(s: Server, r: Request)
    ensures !r.UploadReq? && !r.DeleteReq? ==> Serve(s, r).0.gps == s.gps
  {
    hide WithinTrip, AlightsAfterDeparture, DeparturesInOrder, WriteUpsert, WritePatch, Ordered;
  }

  /** An instant that is taken stays with its row until the row's trip is deleted. */
  lemma TakenInstant(s: Server, r: Request, t: Time)
    requires t in s.gps && s.gps[t].tripId.Some? && s.gps[t].tripId.value in s.trips
    ensures var after := Serve(s, r).0.gps;
            && (t in after <==> r != DeleteReq(s.gps[t].tripId.value))
            && (t in after ==> after[t] == s.gps[t])
  {
    hide BatchValid, ServeUpdate, ServeUpsert, ServeCreate;
    GpsOnlyByUpload(s, r);
    if r.UploadReq? {
      InsertedKeys(s.gps, r.owner, r.points);
      hide InsertPoints;
    }
  }

  // ---- one step ----------------------------------------------------------------------------------

  /** The request that reaches the server in the step. */
  function Served(s: System, step: Step): Option<Request> {
    match step
    case Deliver(id) => if id in s.link.air then Some(s.link.air[id].request) else None
    case DeliverLate(o) => Some(o.request)
    case _ => None
  }

  lemma {:induction false} PerformServer(l: Link, effects: seq<Effect>, now: Time)
    ensures PerformAll(l, effects, now).server == l.server
  {
    hide OutboxModel.Enqueue, Discard, Leaky;
    if effects != [] {
      PerformServer(l, effects[..|effects| - 1], now);
    }
  }

  lemma StepServes(s: System, step: Step)
    requires s.recorder.Shaped() && MayDo(s, step)
    ensures Do(s, step).link.server
            == if Served(s, step).Some? then Serve(s.link.server, Served(s, step).value).0 else s.link.server
  {
    hide Handle, Serve, Next, Complete;
    if step.Observe? {
      PerformServer(s.link, Handle(s.cfg, s.recorder, step.event).effects, step.now);
    }
  }

  // ---- whole runs --------------------------------------------------------------------------------

  predicate RowIs(s: System, t: Time, row: GpsRow) {
    t in s.link.server.gps && s.link.server.gps[t] == row
  }

  predicate Deletes(s: System, step: Step, id: int) {
    Served(s, step) == Some(DeleteReq(id))
  }

  lemma RowOwned(s: System, t: Time)
    requires SysInv(s) && t in s.link.server.gps
    ensures var row := s.link.server.gps[t]; row.tripId.Some? && row.tripId.value in s.link.server.trips
  {
    hide KeyInv, FlightInv, OrphansInv, QueueInv;
  }

  lemma StepKeepsRow(s: System, step: Step, t: Time, id: int, p: GpsPoint)
    requires SysInv(s) && MayDo(s, step) && RowIs(s, t, GpsRow(Some(id), p))
    ensures RowIs(Do(s, step), t, GpsRow(Some(id), p)) <==> !Deletes(s, step, id)
    ensures Deletes(s, step, id) ==> t !in Do(s, step).link.server.gps
  {
    hide Do, MayDo, Handle, Serve, Inv;
    ShapedOf(s);
    StepServes(s, step);
    RowOwned(s, t);
    if Served(s, step).Some? {
      TakenInstant(s.link.server, Served(s, step).value, t);
    }
  }

  lemma {:induction false} RowStays(states: seq<System>, steps: seq<Step>, m: nat, n: nat, t: Time, id: int, p: GpsPoint)
    requires IsRun(states, steps) && m <= n <= |steps| && RowIs(states[m], t, GpsRow(Some(id), p))
    requires forall j :: m <= j < n ==> !Deletes(states[j], steps[j], id)
    ensures RowIs(states[n], t, GpsRow(Some(id), p))
    decreases n
  {
    hide SysInv, Do, MayDo, Handle, RowIs, Deletes;
    if m < n {
      RowStays(states, steps, m, n - 1, t, id, p);
      RunKeepsInv(states, steps);
      assert Follows(states[n - 1], steps[n - 1], states[n]);
      StepKeepsRow(states[n - 1], steps[n - 1], t, id, p);
    }
  }

  /** Step `m` brings point `p` of trip row `id` while its instant is free, and the trip is not deleted before state `n`. */
  ghost predicate KeptSince(states: seq<System>, steps: seq<Step>, m: nat, n: nat, t: Time, id: int, p: GpsPoint) {
    && m < n <= |steps| && |states| == |steps| + 1 && Served(states[m], steps[m]).Some?
    && t !in states[m].link.server.gps
    && (var r := Served(states[m], steps[m]).value;
        r.UploadReq? && r.owner == Some(id)
        && exists i: nat :: Brings(states[m].link.server, r, t, i) && r.points[i] == p)
    && forall j :: m < j < n ==> !Deletes(states[j], steps[j], id)
  }

  lemma BringsUpload(s: Server, r: Request, t: Time, i: nat)
    requires Brings(s, r, t, i)
    ensures r.UploadReq? && i < |r.points|
  {
  }

  lemma StepTakes(s: System, step: Step, t: Time, row: GpsRow) returns (i: nat)
    requires s.recorder.Shaped() && MayDo(s, step) && t !in s.link.server.gps && RowIs(Do(s, step), t, row)
    ensures Served(s, step).Some? && Brings(s.link.server, Served(s, step).value, t, i)
    ensures Served(s, step).value.UploadReq? && row == GpsRow(Served(s, step).value.owner, Served(s, step).value.points[i])
  {
    hide Do, MayDo, Handle, Serve, Brings;
    StepServes(s, step);
    FreeInstant(s.link.server, Served(s, step).value, t);
    i :| Brings(s.link.server, Served(s, step).value, t, i);
    BringsUpload(s.link.server, Served(s, step).value, t, i);
  }

  lemma {:induction false} KeptBySome(states: seq<System>, steps: seq<Step>, n: nat, t: Time, id: int, p: GpsPoint)
    returns (m: nat)
    requires IsRun(states, steps) && n <= |steps| && RowIs(states[n], t, GpsRow(Some(id), p))
    ensures m < n && KeptSince(states, steps, m, n, t, id, p)
    decreases n
  {
    hide SysInv, Do, MayDo, Handle, Brings;
    RunKeepsInv(states, steps);
    assert n > 0 by { NoRowsAtFirst(states[0]); }
    assert Follows(states[n - 1], steps[n - 1], states[n]);
    ShapedOf(states[n - 1]);
    if t in states[n - 1].link.server.gps {
      RowOwned(states[n - 1], t);
      var row := states[n - 1].link.server.gps[t];
      StepKeepsRow(states[n - 1], steps[n - 1], t, row.tripId.value, row.point);
      m := KeptBySome(states, steps, n - 1, t, id, p);
    } else {
      m := n - 1;
      var i := StepTakes(states[n - 1], steps[n - 1], t, GpsRow(Some(id), p));
    }
  }

  lemma NoRowsAtFirst(s: System)
    ensures s == Boot(s.cfg) ==> s.link.server.gps == map[]
  {
  }

  /** Over every run, whoever sampled an instant: its row is point `p` of trip row `id` exactly when an upload of that trip
      brought the point to the server while the instant was free, and the trip was not deleted since. So of several trips
      that sampled it the one whose upload lands first keeps it, until it is deleted. */
  lemma KeptExactlyWhen(states: seq<System>, steps: seq<Step>, t: Time, id: int, p: GpsPoint)
    requires IsRun(states, steps)
    ensures RowIs(Last(states), t, GpsRow(Some(id), p)) <==> exists m: nat :: KeptSince(states, steps, m, |steps|, t, id, p)
  {
    hide SysInv, Do, MayDo, Handle, Brings, Deletes, Served;
    var n := |steps|;
    if RowIs(Last(states), t, GpsRow(Some(id), p)) {
      var m := KeptBySome(states, steps, n, t, id, p);
    }
    if m: nat :| KeptSince(states, steps, m, n, t, id, p) {
      TakenAt(states, steps, m, n, t, id, p);
      RowStays(states, steps, m + 1, n, t, id, p);
    }
  }

  lemma TakenAt(states: seq<System>, steps: seq<Step>, m: nat, n: nat, t: Time, id: int, p: GpsPoint)
    requires IsRun(states, steps) && KeptSince(states, steps, m, n, t, id, p)
    ensures RowIs(states[m + 1], t, GpsRow(Some(id), p))
  {
    hide SysInv, Do, MayDo, Handle, Brings, Deletes, Served, Serve;
    RunKeepsInv(states, steps);
    assert Follows(states[m], steps[m], states[m + 1]);
    ShapedOf(states[m]);
    StepServes(states[m], steps[m]);
    FreeInstant(states[m].link.server, Served(states[m], steps[m]).value, t);
  }
}
