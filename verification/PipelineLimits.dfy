/** Where the pipeline's promises end: runs in which a cancelled trip stays on the server or comes back, a forgotten request
    undoes a newer one, a given-up create strands what is recorded after it, and a key used twice locks its lane. */
module PipelineLimits {
  import opened Basics
  import opened Commands
  import opened TripServer
  import opened CommandFold
  import opened TripViews
  import opened OutboxModel
  import opened Link
  import opened LinkSubmit
  import opened LinkCancel
  import opened LinkLate
  import LinkNetwork
  import LinkServe
  import opened OutboxStuck
  import opened Routes
  import R = RecorderModel
  import P = Pipeline
  import RecorderRules
  import PipelineRuns

  // ---- cancelling after a relaunch ---------------------------------------------------------------

  function Recreate(k: TripKey): Command {
    CreateTrip(k, KstDate(k.leftHomeAt))
  }

  function CreateEntry(k: TripKey, inFlight: bool): Entry {
    Entry(1, Recreate(k), 0, 0, None, inFlight)
  }

  predicate OnlyCreate(l: Link, k: TripKey, inFlight: bool) {
    && l.outbox == OutboxState([CreateEntry(k, inFlight)], map[], [], 2, false)
    && l.log == [Recreate(k)] && l.leaked == {} && l.late == {}
  }

  /** The create is put in and sent. */
  lemma CreateSent(k: TripKey) returns (l: Link)
    ensures MaySubmit(Start, Recreate(k)) && l == Send(Submit(Start, Recreate(k), 0), 0)
    ensures Inv(l) && OnlyCreate(l, k, true) && MayArrive(l, 1) && Ideal(l.log, k).Some?
    ensures l.server == Start.server && l.air[1].request == CreateReq(k.routeId, KstDate(k.leftHomeAt), k.leftHomeAt)
  {
    var c := Recreate(k);
    StartsWell();
    SubmitKeepsInv(Start, c, 0);
    IdealLast(Start, c, k);
    var l1 := Submit(Start, c, 0);
    assert l1.outbox.entries == [CreateEntry(k, false)];
    LinkNetwork.SendKeepsInv(l1, 0);
    assert Ready(l1.outbox, 0, 0);
    l := Send(l1, 0);
  }

  /** The app is relaunched while the create is on its way, before or after the server handled it. */
  lemma Forgotten(l: Link, k: TripKey)
    requires Inv(l) && OnlyCreate(l, k, true) && MayArrive(l, 1)
    requires l.server == Start.server
    ensures var lost, served := Restart(l), Restart(Arrive(l, 1));
            && Inv(lost) && OnlyCreate(lost, k, false) && TripOf(lost.server, k).None?
            && Inv(served) && OnlyCreate(served, k, false) && TripOf(served.server, k).Some?
            && lost.outbox == served.outbox
  {
    hide Inv, ServerInv, WriteRows, RowsOf, Serve;
    LinkServe.ArriveKeepsInv(l, 1);
    var mid := Arrive(l, 1);
    var e := CreateEntry(k, true);
    EntryOf(mid, e);
    LinkNetwork.RestartKeepsInv(mid);
    LinkNetwork.RestartKeepsInv(l);
    assert Restart(mid).outbox.entries == [CreateEntry(k, false)];
    assert Restart(l).outbox.entries == [CreateEntry(k, false)];
    NoTrip(l.server, k);
  }

  lemma CancelsEmpty(l: Link, k: TripKey)
    requires Inv(l) && OnlyCreate(l, k, false) && Ideal(l.log, k).Some?
    ensures var l' := Cancel(l, k, 0);
            && Inv(l') && l'.outbox.entries == [] && l'.outbox.tripIds == map[] && l'.server == l.server
            && Ideal(l'.log, k).None?
  {
    hide Inv;
    CancelKeepsInv(l, k, 0);
    IdealLast(l, DeleteTrip(k), k);
    var e := CreateEntry(k, false);
    assert [e][..0] == [] && Surplus(e, k, false);
    assert !CreateMayHaveLanded([e], k) && !Deleting([e], k);
    assert Remaining([e], k, false) == [];
  }

  /** For every key there are two runs that leave the outbox in the same state before and after the trip is cancelled; in
      one the server never had the trip, in the other it keeps it and nobody knows its id. So no check of the outbox can
      tell whether the cancellation works. */
  lemma OutboxCannotTell(k: TripKey)
    ensures var sent := Send(Submit(Start, Recreate(k), 0), 0);
            && MaySubmit(Start, Recreate(k)) && MayArrive(sent, 1)
            && var lost, served := Restart(sent), Restart(Arrive(sent, 1));
               && lost.outbox == served.outbox && Cancel(lost, k, 0).outbox == Cancel(served, k, 0).outbox
               && Cancel(served, k, 0).outbox.entries == [] && k !in Cancel(served, k, 0).outbox.tripIds
               && TripOf(Cancel(lost, k, 0).server, k).None? && TripOf(Cancel(served, k, 0).server, k).Some?
               && Ideal(Cancel(served, k, 0).log, k).None?
  {
    hide Inv, TripOf, Ideal, Cancel, MaySubmit, MayArrive;
    var sent := CreateSent(k);
    Forgotten(sent, k);
    SameLogs(sent, k);
    CancelsEmpty(Restart(sent), k);
    CancelsEmpty(Restart(Arrive(sent, 1)), k);
    CancelIsDiscard(Restart(sent), k);
    CancelIsDiscard(Restart(Arrive(sent, 1)), k);
  }

  lemma SameLogs(l: Link, k: TripKey)
    requires MayArrive(l, 1)
    ensures Restart(l).log == l.log && Restart(Arrive(l, 1)).log == l.log
  {
  }

  lemma CancelIsDiscard(l: Link, k: TripKey)
    ensures Cancel(l, k, 0).outbox == Discard(l.outbox, k, 0)
  {
  }

  // ---- requests that land late -------------------------------------------------------------------

  function CreateRequest(k: TripKey): Request {
    CreateReq(k.routeId, KstDate(k.leftHomeAt), k.leftHomeAt)
  }

  /** For every key: the app is relaunched while the create is on its way, the trip is cancelled and gone, with nothing
      queued; then the create reaches the server after all, and the trip is there for good. */
  lemma LateCreateRevives(k: TripKey)
    ensures var sent := Send(Submit(Start, Recreate(k), 0), 0);
            var gone, o := Cancel(Restart(sent), k, 0), Orphan(1, Recreate(k), CreateRequest(k));
            && MaySubmit(Start, Recreate(k)) && MayArrive(sent, 1) && Ideal(gone.log, k).None?
            && gone.outbox.entries == [] && TripOf(gone.server, k).None? && o in gone.orphans
            && TripOf(Land(gone, o).server, k) == Some(FreshTrip(k, KstDate(k.leftHomeAt)))
  {
    hide Inv, TripOf, Ideal, Cancel, MaySubmit, Land, Spent, BareOrGone, Restart;
    var sent := CreateSent(k);
    Forgotten(sent, k);
    SameLogs(sent, k);
    CancelsEmpty(Restart(sent), k);
    var gone, o := Cancel(Restart(sent), k, 0), Orphan(1, Recreate(k), CreateRequest(k));
    CreateIsForgotten(sent, k);
    GoneIsOver(gone, k);
    LandKeepsOver(gone, o, k, false);
    OverMeans(Land(gone, o).server, k, true);
  }

  lemma CreateIsForgotten(sent: Link, k: TripKey)
    requires OnlyCreate(sent, k, true) && MayArrive(sent, 1) && sent.air[1].request == CreateRequest(k)
    ensures Orphan(1, Recreate(k), CreateRequest(k)) in Cancel(Restart(sent), k, 0).orphans
  {
    var e := CreateEntry(k, true);
    assert e in sent.outbox.entries && e.id in sent.air;
    assert Orphan(1, Recreate(k), CreateRequest(k)) in Unanswered(sent);
  }

  /** A change of the departure by so many milliseconds. */
  function Moving(k: TripKey, delay: int): Command {
    UpdateTrip(k, TripPatch(Some(k.leftHomeAt + delay), None))
  }

  function MovingEntry(k: TripKey, delay: int, failures: nat, notBefore: Option<Time>, inFlight: bool): Entry {
    Entry(2, Moving(k, delay), 0, failures, notBefore, inFlight)
  }

  function MovedTrip(k: TripKey, delay: int): TripRec {
    FreshTrip(k, KstDate(k.leftHomeAt)).(leftHomeAt := k.leftHomeAt + delay)
  }

  function OneTrip(t: TripRec): Server {
    Server(map[1 := t], map[], 2)
  }

  /** The create was answered and nothing is queued. */
  predicate Begun(l: Link, k: TripKey) {
    && l.outbox == OutboxState([], map[k := 1], [], 2, false) && l.server == OneTrip(FreshTrip(k, KstDate(k.leftHomeAt)))
    && l.air == map[] && l.log == [Recreate(k)] && l.claims == map[(k.routeId, k.leftHomeAt) := k]
  }

  lemma Begins(k: TripKey) returns (l: Link)
    ensures var sent := Send(Submit(Start, Recreate(k), 0), 0);
            && MaySubmit(Start, Recreate(k)) && MayArrive(sent, 1) && MayAnswer(Arrive(sent, 1), 1, TripCreated(1))
            && l == Answer(Arrive(sent, 1), DefaultRetry, 1, TripCreated(1), 0)
    ensures Begun(l, k)
  {
    hide Inv, Ideal;
    var sent := CreateSent(k);
    var mid := Arrive(sent, 1);
    assert mid.air[1].reply == Some(Created(1));
    l := Answer(mid, DefaultRetry, 1, TripCreated(1), 0);
    assert RemoveAt([CreateEntry(k, true)], 0) == [];
  }

  /** The first change is sent and reported as lost. */
  lemma TimesOut(l: Link, k: TripKey) returns (l': Link)
    requires Begun(l, k)
    ensures var sent := Send(Submit(l, Moving(k, 1), 0), 0);
            && MaySubmit(l, Moving(k, 1)) && MayAnswer(sent, 2, Failed(Transport))
            && l' == Answer(sent, DefaultRetry, 2, Failed(Transport), 0)
    ensures l'.outbox == OutboxState([MovingEntry(k, 1, 1, Some(5_000), false)], map[k := 1], [], 3, false)
    ensures l'.server == l.server && l'.air == map[] && l'.log == [Recreate(k), Moving(k, 1)]
    ensures l'.claims == l.claims[(k.routeId, k.leftHomeAt + 1) := k]
    ensures Orphan(2, Moving(k, 1), UpdateReq(1, Moving(k, 1).patch)) in l'.orphans
  {
    IdealStep([], Recreate(k), k);
    assert [] + [Recreate(k)] == l.log;
    hide Ideal;
    var l1 := Submit(l, Moving(k, 1), 0);
    assert l1.outbox.entries == [MovingEntry(k, 1, 0, None, false)];
    assert Ready(l1.outbox, 0, 0);
    var l2 := Send(l1, 0);
    var e := MovingEntry(k, 1, 0, None, true);
    assert l2.outbox.entries == [e] && e in l2.outbox.entries;
    assert Orphan(2, Moving(k, 1), UpdateReq(1, Moving(k, 1).patch)) in Leftover(l2, 2, Failed(Transport));
    assert Pow2(0) == 1;
    l' := Answer(l2, DefaultRetry, 2, Failed(Transport), 0);
    assert l'.outbox.entries == [MovingEntry(k, 1, 1, Some(5_000), false)];
  }

  lemma MovesTrip(k: TripKey, from: int, to: int)
    ensures Serve(OneTrip(MovedTrip(k, from)), UpdateReq(1, Moving(k, to).patch)) == (OneTrip(MovedTrip(k, to)), Accepted)
  {
    var s := OneTrip(MovedTrip(k, from));
    assert WritePatch(s.trips[1], Moving(k, to).patch) == MovedTrip(k, to);
    assert s.(trips := s.trips[1 := MovedTrip(k, to)]) == OneTrip(MovedTrip(k, to));
  }

  /** The second change takes the place of the first and is delivered. */
  lemma Delivers(l: Link, k: TripKey) returns (l': Link)
    requires l.outbox == OutboxState([MovingEntry(k, 1, 1, Some(5_000), false)], map[k := 1], [], 3, false)
    requires l.server == OneTrip(MovedTrip(k, 0)) && l.air == map[] && l.log == [Recreate(k), Moving(k, 1)]
    requires l.claims == map[(k.routeId, k.leftHomeAt) := k, (k.routeId, k.leftHomeAt + 1) := k]
    ensures var sent := Send(Submit(l, Moving(k, 2), 0), 5_000);
            && MaySubmit(l, Moving(k, 2)) && MayArrive(sent, 2) && MayAnswer(Arrive(sent, 2), 2, Delivered)
            && l' == Answer(Arrive(sent, 2), DefaultRetry, 2, Delivered, 5_000)
    ensures l'.outbox.entries == [] && l'.server == OneTrip(MovedTrip(k, 2))
    ensures l'.orphans == l.orphans && l'.log == l.log + [Moving(k, 2)]
  {
    MovedTwice(k);
    hide Ideal;
    var l1 := Submit(l, Moving(k, 2), 0);
    var e := MovingEntry(k, 2, 1, Some(5_000), false);
    assert l1.outbox.entries == [e];
    assert Ready(l1.outbox, 0, 5_000);
    var sent := Send(l1, 5_000);
    assert sent.outbox.entries == [e.(inFlight := true)];
    MovesTrip(k, 0, 2);
    hide Serve;
    var mid := Arrive(sent, 2);
    l' := Answer(mid, DefaultRetry, 2, Delivered, 5_000);
    assert RemoveAt(mid.outbox.entries, 0) == [];
    assert Leftover(mid, 2, Delivered) == {};
  }

  lemma MovedTwice(k: TripKey)
    ensures Ideal([Recreate(k), Moving(k, 1)], k) == Some(MovedTrip(k, 1))
    ensures Ideal([Recreate(k), Moving(k, 1)] + [Moving(k, 2)], k) == Some(MovedTrip(k, 2))
  {
    assert [Recreate(k), Moving(k, 1)] == ([] + [Recreate(k)]) + [Moving(k, 1)];
    IdealStep([], Recreate(k), k);
    IdealStep([] + [Recreate(k)], Moving(k, 1), k);
    IdealStep([Recreate(k), Moving(k, 1)], Moving(k, 2), k);
    hide Ideal;
  }

  lemma IdealStep(log: seq<Command>, c: Command, k: TripKey)
    ensures Ideal(log + [c], k) == WriteTrip(Ideal(log, k), c, k)
  {
    FoldLast(TripWriter(k), Fitting(k), None, log, c);
  }

  lemma OnlyTrip(k: TripKey, delay: int)
    ensures TripOf(OneTrip(MovedTrip(k, delay)), k) == Some(MovedTrip(k, delay))
  {
    assert Bears(OneTrip(MovedTrip(k, delay)), 1, k);
  }

  /** For every key: the change of a departure is reported as lost, a newer one is delivered in its place, and the server
      holds what was recorded; then the lost one reaches the server after all and undoes the newer. */
  lemma LateChangeUndoes(k: TripKey) returns (begun: Link, lost: Link, drained: Link)
    ensures var sent := Send(Submit(Start, Recreate(k), 0), 0);
            && MaySubmit(Start, Recreate(k)) && MayArrive(sent, 1) && MayAnswer(Arrive(sent, 1), 1, TripCreated(1))
            && begun == Answer(Arrive(sent, 1), DefaultRetry, 1, TripCreated(1), 0)
    ensures var sent := Send(Submit(begun, Moving(k, 1), 0), 0);
            && MaySubmit(begun, Moving(k, 1)) && MayAnswer(sent, 2, Failed(Transport))
            && lost == Answer(sent, DefaultRetry, 2, Failed(Transport), 0)
    ensures var sent := Send(Submit(lost, Moving(k, 2), 0), 5_000);
            && MaySubmit(lost, Moving(k, 2)) && MayArrive(sent, 2) && MayAnswer(Arrive(sent, 2), 2, Delivered)
            && drained == Answer(Arrive(sent, 2), DefaultRetry, 2, Delivered, 5_000)
    ensures drained.outbox.entries == [] && TripOf(drained.server, k) == Ideal(drained.log, k)
    ensures var o := Orphan(2, Moving(k, 1), UpdateReq(1, Moving(k, 1).patch));
            o in drained.orphans && TripOf(Land(drained, o).server, k) != Ideal(drained.log, k)
  {
    hide Submit, Send, Arrive, Answer, Serve, MaySubmit, MayArrive, MayAnswer, Ideal, TripOf, LandsLate;
    begun := Begins(k);
    assert FreshTrip(k, KstDate(k.leftHomeAt)) == MovedTrip(k, 0);
    lost := TimesOut(begun, k);
    drained := Delivers(lost, k);
    MovedTwice(k);
    OnlyTrip(k, 2);
    OnlyTrip(k, 1);
    MovesTrip(k, 2, 1);
  }

  // ---- a key used again --------------------------------------------------------------------------

  /** A trip is cancelled while its create is on its way, and a trip with the same key starts before the answer: the lane
      is locked for good, whatever is done short of cancelling the second trip too. */
  lemma ReusedKeyLocks(k: TripKey, policy: RetryPolicy, id: int, ops: seq<Op>)
    ensures var begin := ReusingOps(k, policy, id);
            && AllAllowed(EmptyOutbox, begin)
            && var st := AfterAll(EmptyOutbox, begin);
               && st.entries != [] && !st.paused
               && (AllAllowed(st, ops) && NoneWithdraws(ops, k) ==> LaneStuck(AfterAll(st, ops), k))
  {
    hide AfterAll, AllAllowed, LaneStuck, Numbers, Jammed;
    Reused(k, policy, id);
    LockedLane(k, id);
    if AllAllowed(LockedState(k, id), ops) && NoneWithdraws(ops, k) {
      JammedForEver(LockedState(k, id), ops, k, 2);
    }
  }

  function ReusingOps(k: TripKey, policy: RetryPolicy, id: int): seq<Op> {
    [Put(Recreate(k), 0), Pick(0), Withdraw(k, 0), Put(Recreate(k), 0), Learn(policy, 1, TripCreated(id), 0)]
  }

  /** A delete and, behind it, the create of the second trip. */
  function LockedState(k: TripKey, id: int): OutboxState {
    OutboxState([Entry(2, DeleteTrip(k), 0, 0, None, false), Entry(3, Recreate(k), 0, 0, None, false)],
                map[k := id], [], 4, false)
  }

  lemma LockedLane(k: TripKey, id: int)
    ensures Numbers(LockedState(k, id)) && Jammed(LockedState(k, id), k, 2)
  {
    var st := LockedState(k, id);
    var d, r := st.entries[0], st.entries[1];
    assert r in st.entries && InLane(r, k) && r.id != d.id;
    assert DeleteHeads(st, k, d) && Jams(st, k, d);
  }

  lemma Reused(k: TripKey, policy: RetryPolicy, id: int)
    ensures AllAllowed(EmptyOutbox, ReusingOps(k, policy, id))
    ensures AfterAll(EmptyOutbox, ReusingOps(k, policy, id)) == LockedState(k, id)
  {
    hide AfterAll, AllAllowed;
    var begin := ReusingOps(k, policy, id);
    FiveOps(EmptyOutbox, begin[0], begin[1], begin[2], begin[3], begin[4]);
    SentThenCancelled(k);
    StartedAgain(k, policy, id);
  }

  lemma StartedAgain(k: TripKey, policy: RetryPolicy, id: int)
    ensures var d := Entry(2, DeleteTrip(k), 0, 0, None, false);
            var st := Enqueue(OutboxState([CreateEntry(k, true), d], map[], [], 3, false), Recreate(k), 0);
            && Allowed(st, Learn(policy, 1, TripCreated(id), 0))
            && Complete(policy, st, 1, TripCreated(id), 0) == LockedState(k, id)
  {
    var d, r := Entry(2, DeleteTrip(k), 0, 0, None, false), Entry(3, Recreate(k), 0, 0, None, false);
    var st := Enqueue(OutboxState([CreateEntry(k, true), d], map[], [], 3, false), Recreate(k), 0);
    assert st.entries == [CreateEntry(k, true), d, r];
    assert RemoveAt(st.entries, 0) == [d, r];
  }

  lemma SentThenCancelled(k: TripKey)
    ensures var sent := Next(Enqueue(EmptyOutbox, Recreate(k), 0), 0).0;
            Discard(sent, k, 0)
            == OutboxState([CreateEntry(k, true), Entry(2, DeleteTrip(k), 0, 0, None, false)], map[], [], 3, false)
  {
    var st1 := Enqueue(EmptyOutbox, Recreate(k), 0);
    assert st1.entries == [CreateEntry(k, false)];
    assert Ready(st1, 0, 0);
    var sent := Next(st1, 0).0;
    var e := CreateEntry(k, true);
    assert sent.entries == [e];
    assert [e][..0] == [] && [e][0].inFlight;
    assert CreateMayHaveLanded([e], k) && !Deleting([e], k);
    assert Remaining([e], k, true) == [e];
  }

  lemma FiveOps(st: OutboxState, a: Op, b: Op, c: Op, d: Op, e: Op)
    requires !a.Learn? && !b.Learn? && !c.Learn? && !d.Learn?
    ensures AfterAll(st, [a, b, c, d, e]) == After(After(After(After(After(st, a), b), c), d), e)
    ensures Allowed(After(After(After(After(st, a), b), c), d), e) ==> AllAllowed(st, [a, b, c, d, e])
  {
    hide After, Allowed;
    ThreeOps(st, a, b, c);
    assert [a, b, c] + [d] == [a, b, c, d] && [a, b, c, d] + [e] == [a, b, c, d, e];
    var three := AfterAll(st, [a, b, c]);
    OneOp(three, d);
    NotLearnt(three, d);
    InTurn(st, [a, b, c], [d]);
    OneOp(After(three, d), e);
    InTurn(st, [a, b, c, d], [e]);
  }

  lemma NotLearnt(st: OutboxState, op: Op)
    requires !op.Learn?
    ensures Allowed(st, op)
  {
  }

  // ---- a create given up -------------------------------------------------------------------------

  function WalkRoute(routeId: int): Route {
    Route(routeId, ToWork, Coordinate(0.0, 0.0), Coordinate(1.0, 1.0), [])
  }

  /** One route without transit legs, its origin and its destination. */
  function WalkConfig(routeId: int): R.Config {
    R.Config([WalkRoute(routeId)],
             GeofencePlan([PlannedRegion("home", Coordinate(0.0, 0.0), 100.0, [Origin(routeId)]),
                           PlannedRegion("work", Coordinate(1.0, 1.0), 100.0, [Destination(routeId)])], []),
             R.DefaultPolicy, Hours(0, 24))
  }

  lemma HomeIsLeft(routeId: int, at: Time)
    ensures var cfg := WalkConfig(routeId);
            R.Handle(cfg, R.Resting, R.RegionExited("home", at)) == R.StartTrip(R.Resting, WalkRoute(routeId), at)
  {
    var cfg, route := WalkConfig(routeId), WalkRoute(routeId);
    assert cfg.plan.RolesFor("home") == [Origin(routeId)];
    assert StartingAt(cfg.routes, [Origin(routeId)]) == [route];
    assert FirstRoute([route], ToWork) == Some(route);
    assert 0 <= KstHour(at) < 24;
  }

  function Walking(k: TripKey): R.RecorderState {
    R.RecorderState(Some(R.NewTrip(WalkRoute(k.routeId), k.leftHomeAt)), map[])
  }

  lemma WorkRoles(routeId: int)
    ensures WalkConfig(routeId).plan.RolesFor("work") == [Destination(routeId)]
  {
    var regions := WalkConfig(routeId).plan.regions;
    assert "home"[0] != "work"[0];
    assert regions[0].identifier != "work" && regions[1..][0].identifier == "work";
    assert FindRoles(regions[1..], "work") == [Destination(routeId)];
  }

  lemma WorkIsReached(k: TripKey)
    ensures R.Handle(WalkConfig(k.routeId), Walking(k), R.RegionEntered("work", k.leftHomeAt)).effects
            == [R.Enqueue(Arrival(k)), R.StopLocationUpdates, R.TripEnded(k)]
  {
    hide R.EnterStops, R.SortStops, R.StopsOf, R.Arrive, R.StartFromFirstStop;
    var cfg, roles := WalkConfig(k.routeId), [Destination(k.routeId)];
    WorkRoles(k.routeId);
    NoStops(k, roles);
    WalkArrives(k);
    assert R.EnterOrigin(Walking(k), roles, k.leftHomeAt) == Walking(k);
    var passed, ended := R.Out(Walking(k), []), R.Arrive(Walking(k), k.leftHomeAt);
    assert R.EnterRegions(cfg, Walking(k), roles, k.leftHomeAt).effects == [] + passed.effects + ended.effects;
  }

  lemma NoStops(k: TripKey, roles: seq<Role>)
    requires roles == [Destination(k.routeId)]
    ensures R.SortStops(R.StopsOf(WalkRoute(k.routeId), roles)) == []
    ensures R.EnterStops(Walking(k), [], k.leftHomeAt) == R.Out(Walking(k), [])
  {
    assert R.StopsOf(WalkRoute(k.routeId), roles[1..]) == [];
    assert R.StopsOf(WalkRoute(k.routeId), roles) == [];
    assert |R.SortStops([])| == |multiset(R.SortStops([]))|;
  }

  lemma WalkArrives(k: TripKey)
    ensures R.Arrive(Walking(k), k.leftHomeAt).effects == [R.Enqueue(Arrival(k)), R.StopLocationUpdates, R.TripEnded(k)]
  {
    var trip := Walking(k).trip.value;
    assert R.CloseLegs(trip, 0, k.leftHomeAt) == (trip, []);
    assert R.DismissWaiting([]) == [];
    assert R.FlushGps(Walking(k)).effects == [];
    assert R.EndTrip(Walking(k), k.leftHomeAt).effects == [R.StopLocationUpdates, R.TripEnded(k)];
  }

  /** The arrival recorded after the create was given up. */
  function Arrival(k: TripKey): Command {
    UpdateTrip(k, TripPatch(None, Some(k.leftHomeAt)))
  }

  lemma GivenUp(l: Link, k: TripKey) returns (l': Link)
    requires OnlyCreate(l, k, true) && MayArrive(l, 1) && l.server == Start.server
    requires l.air[1].request == CreateReq(k.routeId, KstDate(k.leftHomeAt), k.leftHomeAt)
    ensures MayAnswer(Arrive(l, 1), 1, Failed(Decoding))
    ensures l' == Answer(Arrive(l, 1), DefaultRetry, 1, Failed(Decoding), 0)
    ensures l'.outbox.entries == [] && l'.outbox.tripIds == map[] && l'.outbox.deadLetters != []
    ensures !l'.outbox.paused && l'.outbox.nextId == 2 && l'.claims == l.claims
  {
    var mid := Arrive(l, 1);
    assert mid.air[1].reply == Some(Created(1));
    l' := Answer(mid, DefaultRetry, 1, Failed(Decoding), 0);
    var e := CreateEntry(k, true);
    assert RemoveAt([e], 0) == [];
    assert Without([], k) == [];
  }

  /** The later command waits for an id that never comes. */
  lemma ArrivalWaits(l: Link, k: TripKey, now: Time)
    requires l.outbox.entries == [] && l.outbox.tripIds == map[] && !l.outbox.paused
    ensures var st := Submit(l, Arrival(k), 0).outbox;
            && st.entries != [] && !st.paused && st.deadLetters == l.outbox.deadLetters
            && (forall e :: e in st.entries ==> !e.inFlight)
            && Next(st, now).1.None? && NextWakeAt(st, now).None?
  {
    var st := Submit(l, Arrival(k), 0).outbox;
    var e := Entry(l.outbox.nextId, Arrival(k), 0, 0, None, false);
    assert st.entries == [e];
    assert !Ready(st, 0, now);
    assert [e][..0] == [];
    assert EarliestAfter([], now) == None;
  }

  lemma FirstStep(k: TripKey) returns (s: P.System, step: P.Step)
    ensures s == P.Boot(WalkConfig(k.routeId)) && RecorderRules.Sound(s.cfg) && s.recorder.Shaped() && P.MayDo(s, step)
    ensures P.Do(s, step) == P.System(Submit(Start, Recreate(k), 0), Walking(k), s.cfg)
  {
    var at := k.leftHomeAt;
    s, step := P.Boot(WalkConfig(k.routeId)), P.Observe(R.RegionExited("home", at), 0);
    HomeIsLeft(k.routeId, at);
    var effects := [R.Enqueue(Recreate(k)), R.StartLocationUpdates];
    assert R.Handle(s.cfg, s.recorder, step.event) == R.Out(Walking(k), effects);
    hide R.Handle, Submit;
    OneCommand(Start, effects[0], effects[1..]);
    assert effects == [effects[0]] + effects[1..];
  }

  /** The last step, in any state with the trip in hand. */
  lemma LastStep(s: P.System, k: TripKey) returns (step: P.Step)
    requires s.cfg == WalkConfig(k.routeId) && s.recorder == Walking(k)
    ensures s.recorder.Shaped() && P.MayDo(s, step)
    ensures P.Do(s, step).link == Submit(s.link, Arrival(k), 0)
  {
    step := P.Observe(R.RegionEntered("work", k.leftHomeAt), 0);
    WorkIsReached(k);
    assert s.recorder.Shaped();
    hide R.Handle, Submit, WalkConfig, Walking, Arrival;
    ArrivalIsPlausible(s, step.event, k);
    OneCommand(s.link, R.Enqueue(Arrival(k)), [R.StopLocationUpdates, R.TripEnded(k)]);
    assert [R.Enqueue(Arrival(k)), R.StopLocationUpdates, R.TripEnded(k)]
           == [R.Enqueue(Arrival(k))] + [R.StopLocationUpdates, R.TripEnded(k)];
  }

  lemma ArrivalIsPlausible(s: P.System, e: R.Event, k: TripKey)
    requires s.recorder.Shaped() && e.RegionEntered?
    requires R.Handle(s.cfg, s.recorder, e).effects == [R.Enqueue(Arrival(k)), R.StopLocationUpdates, R.TripEnded(k)]
    ensures P.Plausible(s, e)
  {
    hide R.Handle;
    assert P.FreshDeparture(s.link.claims, Arrival(k));
  }

  lemma {:induction false} OneCommand(l: Link, e: R.Effect, rest: seq<R.Effect>)
    requires e.Enqueue? && forall x :: x in rest ==> !x.Enqueue? && !x.DiscardOutbox?
    ensures P.PerformAll(l, [e] + rest, 0) == Submit(l, e.command, 0)
    decreases |rest|
  {
    hide Submit;
    if rest == [] {
      assert ([e] + rest)[..0] == [];
    } else {
      assert ([e] + rest)[..|rest|] == [e] + rest[..|rest| - 1];
      assert rest[|rest| - 1] in rest;
      OneCommand(l, e, rest[..|rest| - 1]);
    }
  }

  /** For every route and time there is a run, from a fresh install, in which the trip's create is answered with something
      unreadable and the trip then arrives: there are dead letters, the arrival is queued, nothing is paused or on its way,
      nothing is ever sent and the outbox never asks to be woken. */
  lemma GivenUpRunStrands(k: TripKey) returns (states: seq<P.System>, steps: seq<P.Step>)
    ensures PipelineRuns.IsRun(states, steps)
    ensures var st := PipelineRuns.Last(states).link.outbox;
            && st.deadLetters != [] && st.entries != [] && !st.paused && (forall e :: e in st.entries ==> !e.inFlight)
            && forall now :: Next(st, now).1.None? && NextWakeAt(st, now).None?
  {
    hide R.Handle, Submit, Send, Arrive, Answer, Next, NextWakeAt, Serve, P.PerformAll, MayArrive, MayAnswer;
    var s0, first := FirstStep(k);
    var s1 := P.Do(s0, first);
    var sent := CreateSent(k);
    var s2 := P.Do(s1, P.SendNext(0));
    var given := GivenUp(sent, k);
    var s3 := P.Do(s2, P.Deliver(1));
    var report := P.Report(DefaultRetry, 1, Failed(Decoding), 0);
    var s4 := P.Do(s3, report);
    var last := LastStep(s4, k);
    var s5 := P.Do(s4, last);
    states, steps := [s0, s1, s2, s3, s4, s5], [first, P.SendNext(0), P.Deliver(1), report, last];
    forall now ensures Next(s5.link.outbox, now).1.None? && NextWakeAt(s5.link.outbox, now).None? {
      ArrivalWaits(given, k, now);
    }
    ArrivalWaits(given, k, 0);
  }
}
