/** What the recommendation means, said by chances alone: leaving then, every walk is done in time with exactly the asked
    level, every vehicle arrives in time with at least it, and each is the latest on average that does. */
module Advices {
  import opened Basics
  import opened Recommend

  /** The distribution function rises everywhere. */
  ghost predicate Rising(level: Level) {
    level.Sane() && forall x, y :: x < y ==> level.phi(x) < level.phi(y)
  }

  predicate Proper(legs: seq<Leg>) {
    forall leg :: leg in legs ==>
      match leg
      case Walk(_, duration) => duration.stddev >= 0.0
      case Transit(_, candidates) => forall v :: v in candidates ==> v.Valid()
  }

  // ---- one leg -----------------------------------------------------------------------------------

  /** Something of this duration is done within `d` with exactly the level. */
  predicate DoneWithin(level: Level, duration: Normal, d: real) {
    if duration.stddev > 0.0 then level.Cdf(duration, d) == level.p else d == duration.mean
  }

  /** Whoever is at the stop by `at` catches the vehicle with exactly the level. */
  predicate CaughtBy(level: Level, board: Normal, at: real) {
    if board.stddev > 0.0 then 1.0 - level.Cdf(board, at) == level.p else at == board.mean
  }

  predicate LikelyBy(level: Level, v: Vehicle, at: real) {
    level.Cdf(v.alight, at) >= level.p
  }

  /** Vehicle `i` is the first of those that board latest on average among the ones that arrive in time with the level. */
  predicate FirstAt(level: Level, cs: seq<Vehicle>, neededAt: real, i: nat) {
    && i < |cs| && LikelyBy(level, cs[i], neededAt)
    && (forall j :: 0 <= j < i && LikelyBy(level, cs[j], neededAt) ==> cs[j].board.mean < cs[i].board.mean)
    && forall j :: i < j < |cs| && LikelyBy(level, cs[j], neededAt) ==> cs[j].board.mean <= cs[i].board.mean
  }

  ghost predicate FirstLatest(level: Level, cs: seq<Vehicle>, neededAt: real, v: Vehicle) {
    exists i: nat :: i < |cs| && FirstAt(level, cs, neededAt, i) && cs[i] == v
  }

  /** The leg is gone about from `from` to `until`. */
  ghost predicate LegHolds(level: Level, leg: Leg, from: real, until: real, c: Option<Chosen>) {
    match leg
    case Walk(_, duration) => c.None? && DoneWithin(level, duration, until - from)
    case Transit(legId, candidates) =>
      && c.Some? && c.value.legId == legId && c.value.beAtStopBy == from && c.value.neededAt == until
      && FirstLatest(level, candidates, until, c.value.vehicle) && CaughtBy(level, c.value.vehicle.board, from)
      && c.value.catches == 1.0 - level.Cdf(c.value.vehicle.board, from)
      && c.value.arrives == level.Cdf(c.value.vehicle.alight, until)
  }

  /** In time is what arrives in time with the level. */
  lemma InTimeMeans(level: Level, n: Normal, at: real)
    requires Rising(level) && n.stddev >= 0.0
    ensures level.Upper(n) <= at <==> level.Cdf(n, at) >= level.p
  {
    if n.stddev > 0.0 {
      Divide(level.z, n.stddev);
      if level.Upper(n) <= at {
        AtLeastP(level, n, at);
      } else {
        DivideStrict(at - n.mean, level.z * n.stddev, n.stddev);
        assert level.phi((at - n.mean) / n.stddev) < level.phi(level.z);
      }
    } else {
      assert level.z * 0.0 == 0.0;
    }
  }

  lemma DivideStrict(a: real, b: real, s: real)
    requires s > 0.0 && a < b
    ensures a / s < b / s
  {
  }

  lemma WalkHolds(level: Level, duration: Normal)
    requires Rising(level) && duration.stddev >= 0.0
    ensures DoneWithin(level, duration, level.Upper(duration))
  {
    if duration.stddev > 0.0 {
      PhiAt(level, duration, level.Upper(duration), level.z);
    } else {
      assert level.z * 0.0 == 0.0;
    }
  }

  lemma StopHolds(level: Level, board: Normal)
    requires Rising(level) && board.stddev >= 0.0
    ensures CaughtBy(level, board, level.Lower(board))
  {
    if board.stddev > 0.0 {
      PhiAt(level, board, level.Lower(board), -level.z);
    } else {
      assert level.z * 0.0 == 0.0;
    }
  }

  /** The vehicle picked, or why none is. */
  lemma PickHolds(level: Level, legId: int, cs: seq<Vehicle>, neededAt: real)
    requires Rising(level) && forall v :: v in cs ==> v.Valid()
    ensures var c := PickFor(level, legId, cs, neededAt);
            if c.None? then forall v :: v in cs ==> !LikelyBy(level, v, neededAt)
            else LegHolds(level, Transit(legId, cs), c.value.beAtStopBy, neededAt, c)
  {
    hide Rising, Level.Cdf, Level.Upper, Level.Lower;
    forall v | v in cs ensures level.Upper(v.alight) <= neededAt <==> LikelyBy(level, v, neededAt) {
      InTimeMeans(level, v.alight, neededAt);
    }
    var feasible := Feasible(level, cs, neededAt);
    if feasible != [] {
      var v := Latest(feasible);
      StopHolds(level, v.board);
      assert SameTest(level, cs, neededAt);
      LatestIsFirst(level, cs, neededAt);
    } else {
      forall v | v in cs ensures !LikelyBy(level, v, neededAt) {
        assert v !in feasible;
      }
    }
  }

  lemma FeasibleLast(level: Level, front: seq<Vehicle>, last: Vehicle, neededAt: real)
    ensures Feasible(level, front + [last], neededAt)
            == Feasible(level, front, neededAt) + if level.Upper(last.alight) <= neededAt then [last] else []
  {
    assert (front + [last])[..|front|] == front;
  }

  lemma LatestLast(before: seq<Vehicle>, last: Vehicle)
    ensures Latest(before + [last])
            == if before == [] || last.board.mean > Latest(before).board.mean then last else Latest(before)
  {
    assert (before + [last])[..|before|] == before;
  }

  /** In time and likely enough are the same for these vehicles. */
  predicate SameTest(level: Level, cs: seq<Vehicle>, neededAt: real) {
    forall i :: 0 <= i < |cs| ==> (level.Upper(cs[i].alight) <= neededAt <==> LikelyBy(level, cs[i], neededAt))
  }

  lemma {:induction false} LatestIsFirst(level: Level, cs: seq<Vehicle>, neededAt: real)
    requires Feasible(level, cs, neededAt) != [] && SameTest(level, cs, neededAt)
    ensures FirstLatest(level, cs, neededAt, Latest(Feasible(level, cs, neededAt)))
  {
    var front, last := cs[..|cs| - 1], cs[|cs| - 1];
    assert cs == front + [last];
    TestLast(level, front, last, neededAt);
    hide *;
    if Feasible(level, front, neededAt) == [] {
      FirstOfOne(level, front, last, neededAt);
    } else {
      LatestIsFirst(level, front, neededAt);
      FirstOfMore(level, front, last, neededAt);
    }
  }

  lemma TestLast(level: Level, front: seq<Vehicle>, last: Vehicle, neededAt: real)
    requires SameTest(level, front + [last], neededAt)
    ensures SameTest(level, front, neededAt)
    ensures level.Upper(last.alight) <= neededAt <==> LikelyBy(level, last, neededAt)
  {
    hide LikelyBy, Level.Upper;
    assert forall i :: 0 <= i < |front| ==> front[i] == (front + [last])[i];
    assert (front + [last])[|front|] == last;
  }

  lemma FirstOfOne(level: Level, front: seq<Vehicle>, last: Vehicle, neededAt: real)
    requires SameTest(level, front + [last], neededAt)
    requires Feasible(level, front, neededAt) == [] && Feasible(level, front + [last], neededAt) != []
    ensures FirstLatest(level, front + [last], neededAt, Latest(Feasible(level, front + [last], neededAt)))
  {
    FeasibleLast(level, front, last, neededAt);
    TestLast(level, front, last, neededAt);
    hide LikelyBy, Level.Upper, FirstAt;
    forall j | 0 <= j < |front| ensures !LikelyBy(level, front[j], neededAt) {
      assert front[j] !in Feasible(level, front, neededAt);
    }
    OnlyLast(level, front, last, neededAt);
    assert (front + [last])[|front|] == last;
    assert [] + [last] == [last];
  }

  lemma FirstOfMore(level: Level, front: seq<Vehicle>, last: Vehicle, neededAt: real)
    requires Feasible(level, front, neededAt) != []
    requires level.Upper(last.alight) <= neededAt <==> LikelyBy(level, last, neededAt)
    requires FirstLatest(level, front, neededAt, Latest(Feasible(level, front, neededAt)))
    ensures FirstLatest(level, front + [last], neededAt, Latest(Feasible(level, front + [last], neededAt)))
  {
    var before := Feasible(level, front, neededAt);
    FeasibleLast(level, front, last, neededAt);
    LatestLast(before, last);
    hide LikelyBy, Level.Upper, FirstAt, Feasible, Latest;
    var i: nat :| i < |front| && FirstAt(level, front, neededAt, i) && front[i] == Latest(before);
    OneMore(level, front, last, neededAt, i);
    assert before + [] == before;
    assert (front + [last])[i] == front[i] && (front + [last])[|front|] == last;
  }

  lemma OnlyLast(level: Level, front: seq<Vehicle>, last: Vehicle, neededAt: real)
    requires LikelyBy(level, last, neededAt) && forall j :: 0 <= j < |front| ==> !LikelyBy(level, front[j], neededAt)
    ensures FirstAt(level, front + [last], neededAt, |front|)
  {
    hide LikelyBy;
  }

  lemma OneMore(level: Level, front: seq<Vehicle>, last: Vehicle, neededAt: real, i: nat)
    requires FirstAt(level, front, neededAt, i)
    ensures FirstAt(level, front + [last], neededAt,
                    if LikelyBy(level, last, neededAt) && last.board.mean > front[i].board.mean then |front| else i)
  {
    hide LikelyBy;
  }

  // ---- the whole route ---------------------------------------------------------------------------

  /** `times` are the moments between the legs, `picks` the vehicles, one where the leg is a ride. */
  ghost predicate Timeline(level: Level, legs: seq<Leg>, times: seq<real>, picks: seq<Option<Chosen>>) {
    && |times| == |legs| + 1 && |picks| == |legs|
    && forall i :: 0 <= i < |legs| ==> LegHolds(level, legs[i], times[i], times[i + 1], picks[i])
  }

  function Picked(picks: seq<Option<Chosen>>): seq<Chosen> {
    if picks == [] then []
    else
      var last := picks[|picks| - 1];
      Picked(picks[..|picks| - 1]) + if last.Some? then [last.value] else []
  }

  /** The chance that all goes well, event after event. */
  function Chance(chosen: seq<Chosen>): real {
    if chosen == [] then 1.0 else chosen[0].catches * chosen[0].arrives * Chance(chosen[1..])
  }

  lemma {:induction false} ChanceIsSuccess(chosen: seq<Chosen>)
    ensures Success(chosen) == Chance(chosen)
  {
    if chosen != [] {
      ChanceIsSuccess(chosen[1..]);
      Turned(chosen[0].catches, chosen[0].arrives, Success(chosen[1..]));
    }
  }

  lemma Turned(a: real, b: real, c: real)
    ensures Both(c, Both(a, b)) == a * b * c
  {
  }

  /** The timeline of the legs before `neededAt`, or of those after the leg that has no vehicle. */
  ghost predicate Meant(level: Level, legs: seq<Leg>, neededAt: real, chosen: seq<Chosen>, choice: Choice, times: seq<real>,
                        picks: seq<Option<Chosen>>, i: nat) {
    && times != [] && times[|times| - 1] == neededAt
    && (choice.Made? ==>
          Timeline(level, legs, times, picks) && times[0] == choice.leaveAt && choice.chosen == Picked(picks) + chosen)
    && (choice.Stuck? ==> i < |legs| && NoneFrom(level, legs, i, times, picks, choice))
  }

  lemma BackStep(level: Level, front: seq<Leg>, leg: Leg, neededAt: real, chosen: seq<Chosen>)
    ensures leg.Walk? ==>
              Back(level, front + [leg], neededAt, chosen) == Back(level, front, neededAt - level.Upper(leg.duration), chosen)
    ensures leg.Transit? ==>
              var c := PickFor(level, leg.legId, leg.candidates, neededAt);
              Back(level, front + [leg], neededAt, chosen)
              == if c.None? then Stuck(leg.legId, neededAt, |leg.candidates|)
                 else Back(level, front, c.value.beAtStopBy, [c.value] + chosen)
  {
    assert (front + [leg])[..|front|] == front;
  }

  lemma {:induction false} BackMeans(level: Level, legs: seq<Leg>, neededAt: real, chosen: seq<Chosen>)
    returns (times: seq<real>, picks: seq<Option<Chosen>>, i: nat)
    requires Rising(level) && Proper(legs)
    ensures Meant(level, legs, neededAt, chosen, Back(level, legs, neededAt, chosen), times, picks, i)
    decreases |legs|, 0
  {
    if legs == [] {
      times, picks, i := [neededAt], [], 0;
      assert [] + chosen == chosen;
    } else {
      var front, leg := legs[..|legs| - 1], legs[|legs| - 1];
      assert legs == front + [leg];
      ProperParts(front, leg);
      hide *;
      if leg.Walk? {
        times, picks, i := WalkMeant(level, front, leg, neededAt, chosen);
      } else {
        times, picks, i := RideMeant(level, front, leg, neededAt, chosen);
      }
    }
  }

  lemma ProperParts(front: seq<Leg>, leg: Leg)
    requires Proper(front + [leg])
    ensures Proper(front) && Proper([leg])
  {
    assert leg in front + [leg];
    assert forall other :: other in front ==> other in front + [leg];
  }

  lemma {:induction false} WalkMeant(level: Level, front: seq<Leg>, leg: Leg, neededAt: real, chosen: seq<Chosen>)
    returns (times: seq<real>, picks: seq<Option<Chosen>>, i: nat)
    requires Rising(level) && Proper(front) && Proper([leg]) && leg.Walk?
    ensures Meant(level, front + [leg], neededAt, chosen, Back(level, front + [leg], neededAt, chosen), times, picks, i)
    decreases |front|, 2
  {
    assert leg in [leg];
    BackStep(level, front, leg, neededAt, chosen);
    hide Rising, LegHolds, Back, Level.Upper, Meant;
    WalkLegHolds(level, leg, neededAt);
    assert [] + chosen == chosen;
    times, picks, i := StepMeans(level, front, leg, neededAt - level.Upper(leg.duration), None, neededAt, chosen);
  }

  lemma {:induction false} RideMeant(level: Level, front: seq<Leg>, leg: Leg, neededAt: real, chosen: seq<Chosen>)
    returns (times: seq<real>, picks: seq<Option<Chosen>>, i: nat)
    requires Rising(level) && Proper(front) && Proper([leg]) && leg.Transit?
    ensures Meant(level, front + [leg], neededAt, chosen, Back(level, front + [leg], neededAt, chosen), times, picks, i)
    decreases |front|, 2
  {
    assert leg in [leg];
    BackStep(level, front, leg, neededAt, chosen);
    hide Rising, LegHolds, Back, PickFor, Level.Upper, Meant;
    PickHolds(level, leg.legId, leg.candidates, neededAt);
    var c := PickFor(level, leg.legId, leg.candidates, neededAt);
    if c.None? {
      times, picks, i := [neededAt], [], |front|;
      NoneIsMeant(level, front, leg, neededAt, chosen);
    } else {
      times, picks, i := StepMeans(level, front, leg, c.value.beAtStopBy, c, neededAt, chosen);
    }
  }

  lemma {:induction false} StepMeans(level: Level, front: seq<Leg>, leg: Leg, from: real, c: Option<Chosen>, until: real,
                                     chosen: seq<Chosen>)
    returns (times: seq<real>, picks: seq<Option<Chosen>>, i: nat)
    requires Rising(level) && Proper(front) && LegHolds(level, leg, from, until, c)
    ensures var later := (if c.Some? then [c.value] else []) + chosen;
            Meant(level, front + [leg], until, chosen, Back(level, front, from, later), times, picks, i)
    decreases |front|, 1
  {
    hide *;
    var later := (if c.Some? then [c.value] else []) + chosen;
    times, picks, i := BackMeans(level, front, from, later);
    MeantNext(level, front, leg, from, later, Back(level, front, from, later), times, picks, i, c, until, chosen);
    times, picks := times + [until], picks + [c];
  }

  lemma NoneIsMeant(level: Level, front: seq<Leg>, leg: Leg, neededAt: real, chosen: seq<Chosen>)
    requires leg.Transit? && forall v :: v in leg.candidates ==> !LikelyBy(level, v, neededAt)
    ensures Meant(level, front + [leg], neededAt, chosen, Stuck(leg.legId, neededAt, |leg.candidates|), [neededAt], [], |front|)
  {
    assert (front + [leg])[|front| + 1..] == [];
  }

  lemma MeantNext(level: Level, front: seq<Leg>, leg: Leg, from: real, later: seq<Chosen>, choice: Choice, times: seq<real>,
                  picks: seq<Option<Chosen>>, i: nat, c: Option<Chosen>, until: real, chosen: seq<Chosen>)
    requires Meant(level, front, from, later, choice, times, picks, i) && LegHolds(level, leg, from, until, c)
    requires later == (if c.Some? then [c.value] else []) + chosen
    ensures Meant(level, front + [leg], until, chosen, choice, times + [until], picks + [c], i)
  {
    hide LegHolds;
    OneLegMore(level, front, leg, times, picks, i, c, until, choice);
    hide Timeline, NoneFrom, Picked;
    var mine := if c.Some? then [c.value] else [];
    assert Picked(picks) + (mine + chosen) == (Picked(picks) + mine) + chosen;
  }

  lemma WalkLegHolds(level: Level, leg: Leg, neededAt: real)
    requires Rising(level) && leg.Walk? && leg.duration.stddev >= 0.0
    ensures LegHolds(level, leg, neededAt - level.Upper(leg.duration), neededAt, None)
  {
    WalkHolds(level, leg.duration);
    hide Rising, Level.Upper;
  }

  /** Leg `i` has no vehicle that arrives in time with the level, and the legs after it are planned. */
  ghost predicate NoneFrom(level: Level, legs: seq<Leg>, i: nat, times: seq<real>, picks: seq<Option<Chosen>>, choice: Choice)
    requires i < |legs| && choice.Stuck?
  {
    && legs[i].Transit? && legs[i].legId == choice.legId && |legs[i].candidates| == choice.count
    && Timeline(level, legs[i + 1..], times, picks) && times[0] == choice.neededAt
    && forall v :: v in legs[i].candidates ==> !LikelyBy(level, v, choice.neededAt)
  }

  lemma OneLegMore(level: Level, front: seq<Leg>, leg: Leg, times: seq<real>, picks: seq<Option<Chosen>>, i: nat,
                   c: Option<Chosen>, until: real, choice: Choice)
    requires times != [] && LegHolds(level, leg, times[|times| - 1], until, c)
    ensures Timeline(level, front, times, picks) ==> Timeline(level, front + [leg], times + [until], picks + [c])
    ensures choice.Stuck? && i < |front| && NoneFrom(level, front, i, times, picks, choice) ==>
              NoneFrom(level, front + [leg], i, times + [until], picks + [c], choice)
    ensures Picked(picks + [c]) == Picked(picks) + if c.Some? then [c.value] else []
  {
    hide LegHolds;
    assert (picks + [c])[..|picks|] == picks;
    if i < |front| {
      assert (front + [leg])[i + 1..] == front[i + 1..] + [leg];
    }
  }

  ghost predicate Plans(level: Level, legs: seq<Leg>, target: real, advice: Advice, times: seq<real>,
                        picks: seq<Option<Chosen>>) {
    && Timeline(level, legs, times, picks) && Picked(picks) == advice.chosen
    && times[0] == advice.leaveAt && times[|legs|] == target
  }

  ghost predicate Fails(level: Level, legs: seq<Leg>, target: real, choice: Choice, i: nat, times: seq<real>,
                        picks: seq<Option<Chosen>>)
    requires choice.Stuck?
  {
    i < |legs| && NoneFrom(level, legs, i, times, picks, choice) && times[|legs| - i - 1] == target
  }

  /** What the recommendation gives, with the chances of a distribution that rises everywhere: a departure with a timeline
      to the target in which every leg holds, its chance of success and its time in hand; or a ride that has no vehicle
      likely enough for the timeline of the legs after it. */
  lemma AdviceMeans(level: Level, legs: seq<Leg>, target: real)
    requires Rising(level) && Proper(legs) && legs != []
    ensures match Recommendation(level, legs, target)
            case Ok(advice) =>
              && advice.probability == Chance(advice.chosen)
              && advice.buffer == target - advice.leaveAt - WalkMeans(legs) - Rides(advice.chosen)
              && exists times, picks :: Plans(level, legs, target, advice, times, picks)
            case NoFeasibleVehicle(legId, neededAt, count) =>
              exists i, times, picks :: Fails(level, legs, target, Stuck(legId, neededAt, count), i, times, picks)
            case NoLegs => false
  {
    hide Rising, LegHolds, Proper, Success, WalkSlack, StopSlack;
    var times, picks, i := BackMeans(level, legs, target, []);
    hide Back;
    assert Picked(picks) + [] == Picked(picks);
    var r := Recommendation(level, legs, target);
    if r.Ok? {
      ChanceIsSuccess(r.advice.chosen);
      TargetDecomposes(level, legs, target);
      assert Plans(level, legs, target, r.advice, times, picks);
    } else {
      assert Fails(level, legs, target, Stuck(r.legId, r.neededAt, r.count), i, times, picks);
    }
  }

  /** On a route of one walk with any spread, leaving as advised makes the target with exactly the level. */
  lemma OneWalkIsExact(level: Level, legId: int, duration: Normal, target: real)
    requires Rising(level) && duration.stddev > 0.0
    ensures var r := Recommendation(level, [Walk(legId, duration)], target);
            r.Ok? && level.Cdf(duration, target - r.advice.leaveAt) == level.p
  {
    var legs := [Walk(legId, duration)];
    assert legs[..0] == [];
    assert Back(level, [], target - level.Upper(duration), []).Made?;
    AdviceMeans(level, legs, target);
    hide Level.Cdf, Rising, Timeline;
    var advice := Recommendation(level, legs, target).advice;
    var times, picks :| Plans(level, legs, target, advice, times, picks);
    TimelineAt(level, legs, times, picks, 0);
  }

  lemma TimelineAt(level: Level, legs: seq<Leg>, times: seq<real>, picks: seq<Option<Chosen>>, i: nat)
    requires Timeline(level, legs, times, picks) && i < |legs|
    ensures |times| == |legs| + 1 && |picks| == |legs| && LegHolds(level, legs[i], times[i], times[i + 1], picks[i])
  {
  }

  /** One ride is found infeasible exactly when no vehicle arrives in time with the level. */
  lemma OneRideFailsExactlyWhen(level: Level, legId: int, candidates: seq<Vehicle>, target: real)
    requires Rising(level) && forall v :: v in candidates ==> v.Valid()
    ensures Recommendation(level, [Transit(legId, candidates)], target).NoFeasibleVehicle?
            <==> forall v :: v in candidates ==> level.Cdf(v.alight, target) < level.p
  {
    hide Level.Cdf, Level.Upper, Level.Lower, Rising;
    PickHolds(level, legId, candidates, target);
    var legs := [Transit(legId, candidates)];
    assert legs[..0] == [];
    var c := PickFor(level, legId, candidates, target);
    hide PickFor;
    if c.Some? {
      assert Back(level, [], c.value.beAtStopBy, [c.value] + []).Made?;
      var i: nat :| i < |candidates| && FirstAt(level, candidates, target, i) && candidates[i] == c.value.vehicle;
      assert LikelyBy(level, candidates[i], target) && candidates[i] in candidates;
    }
  }
}
