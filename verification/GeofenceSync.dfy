/** Bringing the regions the phone watches into line with a plan (GeofencePlan.sync): what is stopped and started, and
    that doing so converges without ever going over the platform's limit. */
module GeofenceSync {
  import opened Basics
  import opened Routes
  import opened Geofence
  import GeofenceNames

  datatype Monitored = Monitored(identifier: string, center: Coordinate, radius: real)

  predicate Ours(identifier: string) {
    PREFIX <= identifier
  }

  /** The first planned region with this identifier. */
  function Planned(regions: seq<PlannedRegion>, identifier: string): (r: Option<PlannedRegion>)
    ensures r.Some? ==> r.value in regions && r.value.identifier == identifier
    ensures r.None? ==> forall region :: region in regions ==> region.identifier != identifier
  {
    if regions == [] then None
    else if regions[0].identifier == identifier then Some(regions[0])
    else
      assert regions == [regions[0]] + regions[1..];
      Planned(regions[1..], identifier)
  }

  function Abs(x: real): real {
    if x < 0.0 then -x else x
  }

  /** Watched closely enough to the plan to be left alone. */
  predicate Fits(regions: seq<PlannedRegion>, m: Monitored, dist: Distance, tolerance: real) {
    var planned := Planned(regions, m.identifier);
    && planned.Some?
    && dist(planned.value.center, m.center) <= tolerance
    && Abs(planned.value.radius - m.radius) <= tolerance
  }

  function OursOf(registered: seq<Monitored>): (r: seq<Monitored>)
    ensures forall m :: m in r <==> m in registered && Ours(m.identifier)
  {
    if registered == [] then []
    else
      var last := registered[|registered| - 1];
      assert registered == registered[..|registered| - 1] + [last];
      OursOf(registered[..|registered| - 1]) + if Ours(last.identifier) then [last] else []
  }

  /** The identifiers kept and those stopped, region after region. */
  function Scan(regions: seq<PlannedRegion>, ours: seq<Monitored>, dist: Distance, tolerance: real)
      : (set<string>, set<string>) {
    if ours == [] then ({}, {})
    else
      var (keep, stop) := Scan(regions, ours[..|ours| - 1], dist, tolerance);
      var m := ours[|ours| - 1];
      if Fits(regions, m, dist, tolerance) && m.identifier !in keep
      then (keep + {m.identifier}, stop)
      else (keep, stop + {m.identifier})
  }

  function Missing(regions: seq<PlannedRegion>, keep: set<string>): (r: seq<PlannedRegion>)
    ensures forall region :: region in r <==> region in regions && region.identifier !in keep
  {
    if regions == [] then []
    else
      var last := regions[|regions| - 1];
      assert regions == regions[..|regions| - 1] + [last];
      Missing(regions[..|regions| - 1], keep) + if last.identifier !in keep then [last] else []
  }

  /** What to stop and what to start, in plan order. */
  datatype Work = Work(stop: set<string>, start: seq<PlannedRegion>)

  function WorkOf(plan: GeofencePlan, registered: seq<Monitored>, dist: Distance, tolerance: real): Work {
    var (keep, stop) := Scan(plan.regions, OursOf(registered), dist, tolerance);
    Work(stop, Missing(plan.regions, keep))
  }

  method Sync(plan: GeofencePlan, registered: seq<Monitored>, dist: Distance, tolerance: real) returns (work: Work)
    ensures work == WorkOf(plan, registered, dist, tolerance)
  {
    var ours := OursOf(registered);
    var keep: set<string>, stop: set<string> := {}, {};
    for i := 0 to |ours|
      invariant (keep, stop) == Scan(plan.regions, ours[..i], dist, tolerance)
    {
      assert ours[..i + 1][..i] == ours[..i];
      var m := ours[i];
      var planned := Planned(plan.regions, m.identifier);
      if && planned.Some? && m.identifier !in keep
         && dist(planned.value.center, m.center) <= tolerance
         && Abs(planned.value.radius - m.radius) <= tolerance
      {
        keep := keep + {m.identifier};
      } else {
        stop := stop + {m.identifier};
      }
    }
    assert ours[..|ours|] == ours;
    work := Work(stop, Missing(plan.regions, keep));
  }

  // ---- the phone ---------------------------------------------------------------------------------

  datatype Shape = Shape(center: Coordinate, radius: real)

  /** What the phone watches, by identifier. */
  type Watched = map<string, Shape>

  predicate Lists(registered: seq<Monitored>, os: Watched) {
    && (forall m :: m in registered ==> m.identifier in os && os[m.identifier] == Shape(m.center, m.radius))
    && (forall id :: id in os ==> Monitored(id, os[id].center, os[id].radius) in registered)
    && (forall i, j :: 0 <= i < j < |registered| ==> registered[i].identifier != registered[j].identifier)
  }

  function Foreign(os: Watched): Watched {
    map id | id in os && !Ours(id) :: os[id]
  }

  /** Starting a region replaces one of the same identifier. */
  function Started(os: Watched, regions: seq<PlannedRegion>): Watched {
    if regions == [] then os
    else
      var last := regions[|regions| - 1];
      Started(os, regions[..|regions| - 1])[last.identifier := Shape(last.center, last.radius)]
  }

  function Synced(os: Watched, work: Work): Watched {
    Started(os - work.stop, work.start)
  }

  predicate DistinctNames(regions: seq<PlannedRegion>) {
    forall i, j :: 0 <= i < j < |regions| ==> regions[i].identifier != regions[j].identifier
  }

  ghost predicate GoodPlan(plan: GeofencePlan) {
    && DistinctNames(plan.regions)
    && (forall region :: region in plan.regions ==> Ours(region.identifier))
  }

  /** What is watched under the app's prefix is the plan, each region within tolerance. */
  ghost predicate Agrees(plan: GeofencePlan, os: Watched, dist: Distance, tolerance: real) {
    && (forall region :: region in plan.regions ==> region.identifier in os)
    && (forall id :: id in os && Ours(id) ==> Fits(plan.regions, At(os, id), dist, tolerance))
  }

  function At(os: Watched, id: string): Monitored
    requires id in os
  {
    Monitored(id, os[id].center, os[id].radius)
  }

  /** The work stops what does not fit and starts what is not kept. */
  ghost predicate Does(plan: GeofencePlan, os: Watched, work: Work, dist: Distance, tolerance: real) {
    && (forall id :: id in work.stop <==> id in os && Ours(id) && !Fits(plan.regions, At(os, id), dist, tolerance))
    && (forall region :: region in work.start <==>
          && region in plan.regions
          && !(region.identifier in os && Ours(region.identifier)
               && Fits(plan.regions, At(os, region.identifier), dist, tolerance)))
  }

  predicate Names(regions: seq<PlannedRegion>, id: string) {
    exists region :: region in regions && region.identifier == id
  }

  /** `os'` watches what `os` does and the regions, the regions as given. */
  ghost predicate Applied(os: Watched, regions: seq<PlannedRegion>, os': Watched) {
    && (forall id :: id in os' <==> id in os || Names(regions, id))
    && (forall region :: region in regions ==>
          region.identifier in os' && os'[region.identifier] == Shape(region.center, region.radius))
    && (forall id :: id in os && !Names(regions, id) ==> os'[id] == os[id])
  }

  // ---- proofs ------------------------------------------------------------------------------------

  lemma DistinctLast(ms: seq<Monitored>)
    requires ms != [] && forall i, j :: 0 <= i < j < |ms| ==> ms[i].identifier != ms[j].identifier
    ensures forall m :: m in ms[..|ms| - 1] ==> m.identifier != ms[|ms| - 1].identifier
  {
  }

  lemma {:induction false} OursDistinct(ms: seq<Monitored>)
    requires forall i, j :: 0 <= i < j < |ms| ==> ms[i].identifier != ms[j].identifier
    ensures forall i, j :: 0 <= i < j < |OursOf(ms)| ==> OursOf(ms)[i].identifier != OursOf(ms)[j].identifier
  {
    if ms != [] {
      var front := ms[..|ms| - 1];
      OursDistinct(front);
      DistinctLast(ms);
      forall i | 0 <= i < |OursOf(front)| ensures OursOf(front)[i].identifier != ms[|ms| - 1].identifier {
        assert OursOf(front)[i] in OursOf(front);
      }
    }
  }

  predicate Listed(ms: seq<Monitored>, id: string) {
    exists m :: m in ms && m.identifier == id
  }

  /** With distinct identifiers the scan keeps exactly what fits. */
  lemma {:induction false} ScanMeans(regions: seq<PlannedRegion>, ours: seq<Monitored>, dist: Distance, tolerance: real)
    requires forall i, j :: 0 <= i < j < |ours| ==> ours[i].identifier != ours[j].identifier
    ensures var (keep, stop) := Scan(regions, ours, dist, tolerance);
            && (forall id :: id in keep || id in stop ==> Listed(ours, id))
            && (forall m :: m in ours ==> (m.identifier in keep <==> Fits(regions, m, dist, tolerance)))
            && (forall m :: m in ours ==> (m.identifier in stop <==> !Fits(regions, m, dist, tolerance)))
  {
    hide Fits;
    if ours != [] {
      var front, last := ours[..|ours| - 1], ours[|ours| - 1];
      assert ours == front + [last];
      ScanMeans(regions, front, dist, tolerance);
      DistinctLast(ours);
      var (keep, stop) := Scan(regions, front, dist, tolerance);
      assert !Listed(front, last.identifier);
      assert last.identifier !in keep && last.identifier !in stop;
      forall id | Listed(front, id) ensures Listed(ours, id) {
        var m :| m in front && m.identifier == id;
        assert m in ours;
      }
      assert last in ours && Listed(ours, last.identifier);
      assert Scan(regions, ours, dist, tolerance)
             == if Fits(regions, last, dist, tolerance) then (keep + {last.identifier}, stop) else (keep, stop + {last.identifier});
      hide Listed, Scan;
    }
  }

  lemma WorkMeans(plan: GeofencePlan, registered: seq<Monitored>, os: Watched, dist: Distance, tolerance: real)
    requires Lists(registered, os)
    ensures Does(plan, os, WorkOf(plan, registered, dist, tolerance), dist, tolerance)
  {
    hide Fits, Scan;
    var ours := OursOf(registered);
    OursDistinct(registered);
    ScanMeans(plan.regions, ours, dist, tolerance);
    var (keep, stop) := Scan(plan.regions, ours, dist, tolerance);
    forall id | id in os && Ours(id)
      ensures id in keep <==> Fits(plan.regions, At(os, id), dist, tolerance)
      ensures id in stop <==> !Fits(plan.regions, At(os, id), dist, tolerance)
    {
      assert At(os, id) in ours;
    }
    forall id | id in keep || id in stop ensures id in os && Ours(id) {
      assert Listed(ours, id);
      var m :| m in ours && m.identifier == id;
    }
  }

  lemma {:induction false} StartedMeans(os: Watched, regions: seq<PlannedRegion>)
    requires DistinctNames(regions)
    ensures Applied(os, regions, Started(os, regions))
  {
    if regions != [] {
      var n := |regions| - 1;
      var front, last := regions[..n], regions[n];
      assert regions == front + [last];
      StartedMeans(os, front);
      forall region | region in front ensures region.identifier != last.identifier {
        var i :| 0 <= i < n && front[i] == region;
      }
      forall id ensures Names(regions, id) <==> Names(front, id) || id == last.identifier {
        if Names(front, id) {
          var region :| region in front && region.identifier == id;
          assert region in regions;
        }
        assert last in regions;
      }
    }
  }

  lemma {:induction false} MissingDistinct(regions: seq<PlannedRegion>, keep: set<string>)
    requires DistinctNames(regions)
    ensures DistinctNames(Missing(regions, keep))
  {
    if regions != [] {
      var n := |regions| - 1;
      var front := regions[..n];
      MissingDistinct(front, keep);
      var before, r := Missing(front, keep), Missing(regions, keep);
      assert r == before || r == before + [regions[n]];
      forall i | 0 <= i < |before| ensures before[i].identifier != regions[n].identifier {
        assert before[i] in before && before[i] in front;
        var x :| 0 <= x < n && front[x] == before[i];
      }
      forall i, j | 0 <= i < j < |r| ensures r[i].identifier != r[j].identifier {
        if j < |before| {
          assert r[i] == before[i] && r[j] == before[j] && before[i].identifier != before[j].identifier;
        } else {
          assert r[i] == before[i] && r[j] == regions[n] && before[i].identifier != regions[n].identifier;
        }
      }
    }
  }

  lemma PlannedIsItself(regions: seq<PlannedRegion>, region: PlannedRegion)
    requires DistinctNames(regions)
    requires region in regions
    ensures Planned(regions, region.identifier) == Some(region)
  {
    var other := Planned(regions, region.identifier).value;
    var i :| 0 <= i < |regions| && regions[i] == region;
    var j :| 0 <= j < |regions| && regions[j] == other;
  }

  lemma FreshFits(plan: GeofencePlan, region: PlannedRegion, dist: Distance, tolerance: real)
    requires GoodPlan(plan) && region in plan.regions && tolerance >= 0.0 && dist(region.center, region.center) == 0.0
    ensures Fits(plan.regions, Monitored(region.identifier, region.center, region.radius), dist, tolerance)
  {
    PlannedIsItself(plan.regions, region);
  }

  /** From anything the phone may watch: stopping and then starting leaves the app's regions equal to the plan within
      tolerance and every other region untouched. */
  lemma SyncConverges(plan: GeofencePlan, registered: seq<Monitored>, os: Watched, dist: Distance, tolerance: real)
    requires GoodPlan(plan) && Lists(registered, os) && tolerance >= 0.0 && forall x :: dist(x, x) == 0.0
    ensures var os' := Synced(os, WorkOf(plan, registered, dist, tolerance));
            Agrees(plan, os', dist, tolerance) && Foreign(os') == Foreign(os)
  {
    var work := WorkOf(plan, registered, dist, tolerance);
    var keep := Scan(plan.regions, OursOf(registered), dist, tolerance).0;
    WorkMeans(plan, registered, os, dist, tolerance);
    MissingDistinct(plan.regions, keep);
    assert work.start == Missing(plan.regions, keep);
    hide WorkOf, Started, Lists, Does, Applied, Agrees, Foreign;
    StartedMeans(os - work.stop, work.start);
    PlanIsWatched(plan, os, work, dist, tolerance);
    ForeignUntouched(plan, os, work, dist, tolerance);
  }

  lemma PlanIsWatched(plan: GeofencePlan, os: Watched, work: Work, dist: Distance, tolerance: real)
    requires GoodPlan(plan) && tolerance >= 0.0 && forall x :: dist(x, x) == 0.0
    requires Does(plan, os, work, dist, tolerance) && Applied(os - work.stop, work.start, Synced(os, work))
    ensures Agrees(plan, Synced(os, work), dist, tolerance)
  {
    hide Fits, Started;
    var os' := Synced(os, work);
    forall id | id in os' && Ours(id) ensures Fits(plan.regions, At(os', id), dist, tolerance) {
      if Names(work.start, id) {
        var region :| region in work.start && region.identifier == id;
        FreshFits(plan, region, dist, tolerance);
      } else {
        assert id in os - work.stop;
      }
    }
    forall region | region in plan.regions ensures region.identifier in os' {
      if region !in work.start {
        assert region.identifier in os - work.stop;
      }
    }
  }

  lemma ForeignUntouched(plan: GeofencePlan, os: Watched, work: Work, dist: Distance, tolerance: real)
    requires GoodPlan(plan)
    requires Does(plan, os, work, dist, tolerance) && Applied(os - work.stop, work.start, Synced(os, work))
    ensures Foreign(Synced(os, work)) == Foreign(os)
  {
    hide Fits, Started;
    var os' := Synced(os, work);
    forall id | !Ours(id) ensures id in os' <==> id in os
                          ensures id in os && id in os' ==> os'[id] == os[id] {
      assert !Names(work.start, id);
    }
  }

  // ---- in plain words ----------------------------------------------------------------------------

  /** The phone watches the region under its name, near enough and with about its radius. */
  predicate CloseTo(region: PlannedRegion, m: Monitored, dist: Distance, tolerance: real) {
    && region.identifier == m.identifier && dist(region.center, m.center) <= tolerance
    && -tolerance <= region.radius - m.radius <= tolerance
  }

  lemma FitsIsClose(regions: seq<PlannedRegion>, m: Monitored, dist: Distance, tolerance: real)
    requires DistinctNames(regions)
    ensures Fits(regions, m, dist, tolerance) <==> exists region :: region in regions && CloseTo(region, m, dist, tolerance)
    ensures forall region :: region in regions && region.identifier == m.identifier ==>
              (Fits(regions, m, dist, tolerance) <==> CloseTo(region, m, dist, tolerance))
  {
    hide Planned;
    forall region | region in regions && region.identifier == m.identifier
      ensures Planned(regions, m.identifier) == Some(region)
    {
      PlannedIsItself(regions, region);
    }
  }

  lemma {:induction false} MissingInOrder(regions: seq<PlannedRegion>, keep: set<string>, i: nat, j: nat)
    returns (a: nat, b: nat)
    requires i <= j < |Missing(regions, keep)|
    ensures a <= b < |regions| && (i < j ==> a < b)
    ensures regions[a] == Missing(regions, keep)[i] && regions[b] == Missing(regions, keep)[j]
  {
    var n := |regions| - 1;
    var before := Missing(regions[..n], keep);
    if j < |before| {
      a, b := MissingInOrder(regions[..n], keep, i, j);
    } else {
      b := n;
      if i < j {
        var c := 0;
        a, c := MissingInOrder(regions[..n], keep, i, i);
      } else {
        a := n;
      }
    }
  }

  /** The second region comes after the first one. */
  predicate Follows(regions: seq<PlannedRegion>, first: PlannedRegion, second: PlannedRegion) {
    exists a, b :: 0 <= a < b < |regions| && regions[a] == first && regions[b] == second
  }

  /** Stopped are exactly the app's regions that no planned region is close to; started, in plan order, exactly the
      planned ones that no watched region is close to. */
  lemma SyncMeans(plan: GeofencePlan, registered: seq<Monitored>, os: Watched, dist: Distance, tolerance: real)
    requires DistinctNames(plan.regions) && Lists(registered, os)
    ensures var work := WorkOf(plan, registered, dist, tolerance);
            && (forall id :: id in work.stop <==>
                  "wio." <= id && exists m :: && m in registered && m.identifier == id
                                              && forall region :: region in plan.regions ==> !CloseTo(region, m, dist, tolerance))
            && (forall region :: region in work.start <==>
                  && region in plan.regions
                  && forall m :: m in registered && "wio." <= m.identifier ==> !CloseTo(region, m, dist, tolerance))
            && forall i, j :: 0 <= i < j < |work.start| ==> Follows(plan.regions, work.start[i], work.start[j])
  {
    var work := WorkOf(plan, registered, dist, tolerance);
    WorkMeans(plan, registered, os, dist, tolerance);
    forall i, j | 0 <= i < j < |work.start|
      ensures Follows(plan.regions, work.start[i], work.start[j])
    {
      var a, b := MissingInOrder(plan.regions, Scan(plan.regions, OursOf(registered), dist, tolerance).0, i, j);
      assert plan.regions[a] == work.start[i] && plan.regions[b] == work.start[j];
    }
    hide WorkOf;
    forall m | m in registered ensures Monitored(m.identifier, m.center, m.radius) == At(os, m.identifier) {
    }
    StoppedMeans(plan, registered, os, work, dist, tolerance);
    StartedAreMissing(plan, registered, os, work, dist, tolerance);
  }

  lemma StoppedMeans(plan: GeofencePlan, registered: seq<Monitored>, os: Watched, work: Work, dist: Distance,
                     tolerance: real)
    requires DistinctNames(plan.regions) && Lists(registered, os) && Does(plan, os, work, dist, tolerance)
    ensures forall id :: id in work.stop <==>
              "wio." <= id && exists m :: && m in registered && m.identifier == id
                                          && forall region :: region in plan.regions ==> !CloseTo(region, m, dist, tolerance)
  {
    hide Fits, CloseTo, DistinctNames;
    forall m | m in registered
      ensures Fits(plan.regions, m, dist, tolerance) <==>
              exists region :: region in plan.regions && CloseTo(region, m, dist, tolerance)
    {
      FitsIsClose(plan.regions, m, dist, tolerance);
    }
    forall id | id in os ensures At(os, id) in registered {
    }
  }

  lemma StartedAreMissing(plan: GeofencePlan, registered: seq<Monitored>, os: Watched, work: Work, dist: Distance,
                          tolerance: real)
    requires DistinctNames(plan.regions) && Lists(registered, os) && Does(plan, os, work, dist, tolerance)
    ensures forall region :: region in work.start <==>
              && region in plan.regions
              && forall m :: m in registered && "wio." <= m.identifier ==> !CloseTo(region, m, dist, tolerance)
  {
    hide Fits, DistinctNames;
    forall m | m in registered
      ensures forall region :: region in plan.regions && region.identifier == m.identifier ==>
                (Fits(plan.regions, m, dist, tolerance) <==> CloseTo(region, m, dist, tolerance))
    {
      FitsIsClose(plan.regions, m, dist, tolerance);
    }
    forall id | id in os ensures At(os, id) in registered {
    }
  }

  lemma HeadIsMember<T>(s: seq<T>)
    ensures s == [] || s[0] in s
  {
  }

  /** Where the app's regions already agree with the plan there is nothing to do, whatever order they are listed in. */
  lemma AgreeingNeedsNothing(plan: GeofencePlan, registered: seq<Monitored>, os: Watched, dist: Distance, tolerance: real)
    requires GoodPlan(plan) && Lists(registered, os) && Agrees(plan, os, dist, tolerance)
    ensures WorkOf(plan, registered, dist, tolerance) == Work({}, [])
  {
    var work := WorkOf(plan, registered, dist, tolerance);
    WorkMeans(plan, registered, os, dist, tolerance);
    hide WorkOf, Fits;
    assert work.stop == {};
    forall region ensures region !in work.start {
      if region in plan.regions {
        assert Fits(plan.regions, At(os, region.identifier), dist, tolerance);
      }
    }
    HeadIsMember(work.start);
  }

  /** The plan of any set of routes can be synced from any state, and syncing again does nothing. */
  lemma PlannedSyncSettles(routes: seq<Route>, usual: Direction, active: Option<int>, radius: RadiusPolicy, merge: real,
                           limit: int, registered: seq<Monitored>, os: Watched, again: seq<Monitored>, dist: Distance,
                           tolerance: real)
    requires GeofenceNames.DistinctIds(routes) && forall route :: route in routes ==> route.Distinct()
    requires Lists(registered, os) && tolerance >= 0.0 && forall x :: dist(x, x) == 0.0
    requires Lists(again, Synced(os, WorkOf(PlanOf(routes, usual, active, radius, dist, merge, limit), registered, dist,
                                            tolerance)))
    ensures var plan := PlanOf(routes, usual, active, radius, dist, merge, limit);
            && Agrees(plan, Synced(os, WorkOf(plan, registered, dist, tolerance)), dist, tolerance)
            && WorkOf(plan, again, dist, tolerance) == Work({}, [])
  {
    var plan := PlanOf(routes, usual, active, radius, dist, merge, limit);
    PlansAreGood(routes, usual, active, radius, dist, merge, limit);
    hide PlanOf, GoodPlan, Lists, Agrees, WorkOf, Synced;
    SyncConverges(plan, registered, os, dist, tolerance);
    AgreeingNeedsNothing(plan, again, Synced(os, WorkOf(plan, registered, dist, tolerance)), dist, tolerance);
  }

  lemma PlansAreGood(routes: seq<Route>, usual: Direction, active: Option<int>, radius: RadiusPolicy, dist: Distance,
                     merge: real, limit: int)
    requires GeofenceNames.DistinctIds(routes) && forall route :: route in routes ==> route.Distinct()
    ensures GoodPlan(PlanOf(routes, usual, active, radius, dist, merge, limit))
  {
    GeofenceNames.PlanIsSound(routes, usual, active, radius, dist, merge, limit);
  }

  // ---- the limit ---------------------------------------------------------------------------------

  function Ids(regions: seq<PlannedRegion>): set<string> {
    set region | region in regions :: region.identifier
  }

  lemma {:induction false} IdsCount(regions: seq<PlannedRegion>)
    ensures |Ids(regions)| <= |regions|
  {
    if regions == [] {
      assert Ids(regions) == {};
    } else {
      var front, last := regions[..|regions| - 1], regions[|regions| - 1];
      assert regions == front + [last];
      IdsCount(front);
      assert Ids(regions) == Ids(front) + {last.identifier};
    }
  }

  lemma SubsetCount<T>(a: set<T>, b: set<T>)
    requires a <= b
    ensures |a| <= |b|
  {
    assert b == a + (b - a);
  }

  lemma {:induction false} StartedKeys(os: Watched, regions: seq<PlannedRegion>)
    ensures Started(os, regions).Keys == os.Keys + Ids(regions)
  {
    if regions != [] {
      var front, last := regions[..|regions| - 1], regions[|regions| - 1];
      assert regions == front + [last];
      StartedKeys(os, front);
    }
  }

  /** At no moment are more regions watched than at first, or than the plan and the other apps' regions together. */
  lemma SyncStaysWithin(plan: GeofencePlan, registered: seq<Monitored>, os: Watched, dist: Distance, tolerance: real,
                        stopped: set<string>, n: nat)
    requires GoodPlan(plan) && Lists(registered, os)
    requires var work := WorkOf(plan, registered, dist, tolerance); stopped <= work.stop && n <= |work.start|
    ensures var work := WorkOf(plan, registered, dist, tolerance);
            && |os - stopped| <= |os|
            && |Started(os - work.stop, work.start[..n])| <= |Foreign(os)| + |plan.regions|
  {
    var work := WorkOf(plan, registered, dist, tolerance);
    WorkMeans(plan, registered, os, dist, tolerance);
    SubsetCount((os - stopped).Keys, os.Keys);
    assert |os - stopped| == |(os - stopped).Keys| && |os| == |os.Keys|;
    var os' := Started(os - work.stop, work.start[..n]);
    StartedKeys(os - work.stop, work.start[..n]);
    hide WorkOf, Started;
    forall id | id in os'.Keys ensures id in Foreign(os).Keys + Ids(plan.regions) {
      if region :| region in work.start[..n] && region.identifier == id {
        assert region in work.start;
      }
    }
    SubsetCount(os'.Keys, Foreign(os).Keys + Ids(plan.regions));
    IdsCount(plan.regions);
    assert |os'| == |os'.Keys| && |Foreign(os)| == |Foreign(os).Keys|;
  }
}
