/** When to leave home for a target arrival: the backward choice of vehicles in recommend.py, over reals. Times and
    durations are seconds; the level `p` comes with its standard normal quantile and distribution function. */
module Recommend {
  import opened Basics

  datatype Normal = Normal(mean: real, stddev: real)

  /** `z` is the quantile of level `p`, so 1 - p has quantile -z; `phi` is the standard normal distribution. */
  datatype Level = Level(p: real, z: real, phi: real -> real) {
    function Upper(n: Normal): real {
      n.mean + z * n.stddev
    }

    function Lower(n: Normal): real {
      n.mean - z * n.stddev
    }

    /** The chance of a moment no later than `at`. */
    function Cdf(n: Normal, at: real): real {
      if n.stddev == 0.0 then (if at - n.mean >= 0.0 then 1.0 else 0.0) else phi((at - n.mean) / n.stddev)
    }

    ghost predicate Sane() {
      && 0.0 < p < 1.0
      && (forall x :: 0.0 <= phi(x) <= 1.0)
      && (forall x, y :: x <= y ==> phi(x) <= phi(y))
      && phi(z) == p && phi(-z) == 1.0 - p
    }
  }

  datatype Vehicle = Vehicle(name: string, board: Normal, alight: Normal) {
    predicate Valid() {
      board.stddev >= 0.0 && alight.stddev >= 0.0
    }
  }

  datatype Leg = Walk(legId: int, duration: Normal) | Transit(legId: int, candidates: seq<Vehicle>)

  datatype Chosen = Chosen(
    legId: int, vehicle: Vehicle, beAtStopBy: real, neededAt: real, catches: real, arrives: real)

  datatype Advice = Advice(leaveAt: real, probability: real, buffer: real, chosen: seq<Chosen>)

  datatype Outcome = Ok(advice: Advice) | NoFeasibleVehicle(legId: int, neededAt: real, count: nat) | NoLegs

  // ---- the backward choice -----------------------------------------------------------------------

  function Feasible(level: Level, cs: seq<Vehicle>, neededAt: real): (r: seq<Vehicle>)
    ensures forall c :: c in r <==> c in cs && level.Upper(c.alight) <= neededAt
  {
    if cs == [] then []
    else
      var last := cs[|cs| - 1];
      assert cs == cs[..|cs| - 1] + [last];
      Feasible(level, cs[..|cs| - 1], neededAt) + if level.Upper(last.alight) <= neededAt then [last] else []
  }

  /** The first of the vehicles that board latest on average. */
  function Latest(cs: seq<Vehicle>): (v: Vehicle)
    requires cs != []
    ensures v in cs && forall c :: c in cs ==> c.board.mean <= v.board.mean
  {
    if |cs| == 1 then cs[0]
    else
      var best := Latest(cs[..|cs| - 1]);
      var last := cs[|cs| - 1];
      assert cs == cs[..|cs| - 1] + [last];
      if last.board.mean > best.board.mean then last else best
  }

  function Choose(level: Level, legId: int, v: Vehicle, neededAt: real): Chosen {
    var at := level.Lower(v.board);
    Chosen(legId, v, at, neededAt, 1.0 - level.Cdf(v.board, at), level.Cdf(v.alight, neededAt))
  }

  /** The vehicle for one transit leg, if any is in time. */
  function PickFor(level: Level, legId: int, candidates: seq<Vehicle>, neededAt: real): Option<Chosen> {
    var feasible := Feasible(level, candidates, neededAt);
    if feasible == [] then None else Some(Choose(level, legId, Latest(feasible), neededAt))
  }

  datatype Choice = Made(leaveAt: real, chosen: seq<Chosen>) | Stuck(legId: int, neededAt: real, count: nat)

  /** The choice for the legs before `neededAt`, ahead of what was chosen for later ones. */
  function Back(level: Level, legs: seq<Leg>, neededAt: real, chosen: seq<Chosen>): Choice {
    if legs == [] then Made(neededAt, chosen)
    else
      var front := legs[..|legs| - 1];
      match legs[|legs| - 1]
      case Walk(_, duration) => Back(level, front, neededAt - level.Upper(duration), chosen)
      case Transit(legId, candidates) =>
        var c := PickFor(level, legId, candidates, neededAt);
        if c.None? then Stuck(legId, neededAt, |candidates|)
        else Back(level, front, c.value.beAtStopBy, [c.value] + chosen)
  }

  /** The chance of two independent events together. */
  function Both(a: real, b: real): real {
    a * b
  }

  /** The chance that every chosen vehicle is caught and arrives in time. */
  function Success(chosen: seq<Chosen>): real {
    if chosen == [] then 1.0 else Both(Success(chosen[1..]), Both(chosen[0].catches, chosen[0].arrives))
  }

  /** The time kept in hand on foot. */
  function WalkSlack(level: Level, legs: seq<Leg>): real {
    if legs == [] then 0.0
    else
      (if legs[0].Walk? then level.Upper(legs[0].duration) - legs[0].duration.mean else 0.0) + WalkSlack(level, legs[1..])
  }

  /** The time kept in hand at the stops. */
  function StopSlack(chosen: seq<Chosen>): real {
    if chosen == [] then 0.0 else (chosen[0].vehicle.board.mean - chosen[0].beAtStopBy) + StopSlack(chosen[1..])
  }

  function Recommendation(level: Level, legs: seq<Leg>, target: real): Outcome {
    if legs == [] then NoLegs
    else
      match Back(level, legs, target, [])
      case Made(leaveAt, chosen) =>
        Ok(Advice(leaveAt, Success(chosen), WalkSlack(level, legs) + StopSlack(chosen), chosen))
      case Stuck(legId, neededAt, count) => NoFeasibleVehicle(legId, neededAt, count)
  }

  function Reverse<T>(s: seq<T>): seq<T> {
    if s == [] then [] else [s[|s| - 1]] + Reverse(s[..|s| - 1])
  }

  lemma ReverseLast<T>(s: seq<T>, x: T)
    ensures Reverse(s + [x]) == [x] + Reverse(s)
  {
    assert (s + [x])[..|s|] == s;
  }

  /** The running totals after the legs from `i` on. */
  ghost predicate Tally(level: Level, legs: seq<Leg>, i: nat, chosen: seq<Chosen>, buffer: real, probability: real)
    requires i <= |legs|
  {
    buffer == WalkSlack(level, legs[i..]) + StopSlack(chosen) && probability == Success(chosen)
  }

  lemma TallyWalk(level: Level, legs: seq<Leg>, i: nat, chosen: seq<Chosen>, buffer: real, probability: real)
    requires i < |legs| && legs[i].Walk? && Tally(level, legs, i + 1, chosen, buffer, probability)
    ensures Tally(level, legs, i, chosen, buffer + (level.Upper(legs[i].duration) - legs[i].duration.mean), probability)
  {
    hide Level.Upper, Success, StopSlack;
    assert legs[i..][1..] == legs[i + 1..];
  }

  lemma TallyTransit(level: Level, legs: seq<Leg>, i: nat, chosen: seq<Chosen>, buffer: real, probability: real, c: Chosen)
    requires i < |legs| && legs[i].Transit? && Tally(level, legs, i + 1, chosen, buffer, probability)
    ensures Tally(level, legs, i, [c] + chosen, buffer + (c.vehicle.board.mean - c.beAtStopBy),
                  Both(probability, Both(c.catches, c.arrives)))
  {
    hide Both;
    assert legs[i..][1..] == legs[i + 1..];
    assert ([c] + chosen)[1..] == chosen;
  }

  /** Choosing for the first `i` legs from here on gives the choice for the whole route. */
  ghost predicate OnTrack(level: Level, legs: seq<Leg>, i: nat, neededAt: real, chosen: seq<Chosen>, target: real) {
    i <= |legs| && Back(level, legs[..i], neededAt, chosen) == Back(level, legs, target, [])
  }

  lemma NothingYet(level: Level, legs: seq<Leg>, target: real)
    ensures OnTrack(level, legs, |legs|, target, [], target) && Reverse<Chosen>([]) == []
    ensures Tally(level, legs, |legs|, [], 0.0, 1.0)
  {
    assert legs[..|legs|] == legs;
  }

  lemma OnFoot(level: Level, legs: seq<Leg>, i: nat, neededAt: real, chosen: seq<Chosen>, target: real)
    requires i < |legs| && legs[i].Walk? && OnTrack(level, legs, i + 1, neededAt, chosen, target)
    ensures OnTrack(level, legs, i, neededAt - level.Upper(legs[i].duration), chosen, target)
  {
    assert legs[..i + 1][..i] == legs[..i];
  }

  lemma ByVehicle(level: Level, legs: seq<Leg>, i: nat, neededAt: real, chosen: seq<Chosen>, target: real)
    requires i < |legs| && legs[i].Transit? && OnTrack(level, legs, i + 1, neededAt, chosen, target)
    ensures var c := PickFor(level, legs[i].legId, legs[i].candidates, neededAt);
            if c.None?
            then Recommendation(level, legs, target) == NoFeasibleVehicle(legs[i].legId, neededAt, |legs[i].candidates|)
            else OnTrack(level, legs, i, c.value.beAtStopBy, [c.value] + chosen, target)
  {
    assert legs[..i + 1][..i] == legs[..i];
  }

  lemma Arrived(level: Level, legs: seq<Leg>, target: real, leaveAt: real, chosen: seq<Chosen>, buffer: real,
                probability: real)
    requires legs != [] && OnTrack(level, legs, 0, leaveAt, chosen, target)
    requires Tally(level, legs, 0, chosen, buffer, probability)
    ensures Recommendation(level, legs, target) == Ok(Advice(leaveAt, probability, buffer, chosen))
  {
    assert legs[0..] == legs && legs[..0] == [];
  }

  /** Where the loop stands when the legs from `i` on are done. */
  ghost predicate Underway(level: Level, legs: seq<Leg>, i: nat, neededAt: real, chosen: seq<Chosen>, buffer: real,
                           probability: real, target: real) {
    && i <= |legs|
    && OnTrack(level, legs, i, neededAt, Reverse(chosen), target)
    && Tally(level, legs, i, Reverse(chosen), buffer, probability)
  }

  lemma Begins(level: Level, legs: seq<Leg>, target: real)
    ensures Underway(level, legs, |legs|, target, [], 0.0, 1.0, target)
  {
    NothingYet(level, legs, target);
  }

  lemma WalkKeeps(level: Level, legs: seq<Leg>, i: nat, neededAt: real, chosen: seq<Chosen>, buffer: real,
                  probability: real, target: real)
    requires i < |legs| && legs[i].Walk? && Underway(level, legs, i + 1, neededAt, chosen, buffer, probability, target)
    ensures var quantile := level.Upper(legs[i].duration);
            Underway(level, legs, i, neededAt - quantile, chosen, buffer + (quantile - legs[i].duration.mean),
                     probability, target)
  {
    hide OnTrack, Tally, Reverse;
    OnFoot(level, legs, i, neededAt, Reverse(chosen), target);
    TallyWalk(level, legs, i, Reverse(chosen), buffer, probability);
  }

  lemma RideKeeps(level: Level, legs: seq<Leg>, i: nat, neededAt: real, chosen: seq<Chosen>, buffer: real,
                  probability: real, target: real)
    requires i < |legs| && legs[i].Transit?
    requires Underway(level, legs, i + 1, neededAt, chosen, buffer, probability, target)
    ensures var picked := PickFor(level, legs[i].legId, legs[i].candidates, neededAt);
            if picked.None?
            then Recommendation(level, legs, target) == NoFeasibleVehicle(legs[i].legId, neededAt, |legs[i].candidates|)
            else var c := picked.value;
                 Underway(level, legs, i, c.beAtStopBy, chosen + [c], buffer + (c.vehicle.board.mean - c.beAtStopBy),
                          Both(probability, Both(c.catches, c.arrives)), target)
  {
    hide OnTrack, Tally, Reverse, Recommendation, PickFor, Both;
    ByVehicle(level, legs, i, neededAt, Reverse(chosen), target);
    var picked := PickFor(level, legs[i].legId, legs[i].candidates, neededAt);
    if picked.Some? {
      TallyTransit(level, legs, i, Reverse(chosen), buffer, probability, picked.value);
      ReverseLast(chosen, picked.value);
    }
  }

  lemma Ends(level: Level, legs: seq<Leg>, leaveAt: real, chosen: seq<Chosen>, buffer: real, probability: real, target: real)
    requires legs != [] && Underway(level, legs, 0, leaveAt, chosen, buffer, probability, target)
    ensures Recommendation(level, legs, target) == Ok(Advice(leaveAt, probability, buffer, Reverse(chosen)))
  {
    Arrived(level, legs, target, leaveAt, Reverse(chosen), buffer, probability);
  }

  method RecommendDeparture(level: Level, legs: seq<Leg>, target: real) returns (outcome: Outcome)
    ensures outcome == Recommendation(level, legs, target)
  {
    assert Recommendation(level, [], target) == NoLegs;
    hide *;
    if legs == [] {
      return NoLegs;
    }
    var neededAt, buffer, probability := target, 0.0, 1.0;
    var chosen: seq<Chosen> := [];
    Begins(level, legs, target);
    for i := |legs| downto 0
      invariant Underway(level, legs, i, neededAt, chosen, buffer, probability, target)
    {
      var leg := legs[i];
      if leg.Walk? {
        WalkKeeps(level, legs, i, neededAt, chosen, buffer, probability, target);
        var quantile := level.Upper(leg.duration);
        buffer, neededAt := buffer + (quantile - leg.duration.mean), neededAt - quantile;
      } else {
        RideKeeps(level, legs, i, neededAt, chosen, buffer, probability, target);
        var picked := PickFor(level, leg.legId, leg.candidates, neededAt);
        if picked.None? {
          return NoFeasibleVehicle(leg.legId, neededAt, |leg.candidates|);
        }
        var c := picked.value;
        chosen := chosen + [c];
        buffer, neededAt := buffer + (c.vehicle.board.mean - c.beAtStopBy), c.beAtStopBy;
        probability := Both(probability, Both(c.catches, c.arrives));
      }
    }
    Ends(level, legs, neededAt, chosen, buffer, probability, target);
    outcome := Ok(Advice(neededAt, probability, buffer, Reverse(chosen)));
  }

  // ---- chains of vehicles ------------------------------------------------------------------------

  /** Taking `vs`, one vehicle per transit leg, to be through by `neededAt`: when to leave, if that can work. */
  function Chain(level: Level, legs: seq<Leg>, neededAt: real, vs: seq<Vehicle>): Option<real> {
    if legs == [] then (if vs == [] then Some(neededAt) else None)
    else
      var front := legs[..|legs| - 1];
      match legs[|legs| - 1]
      case Walk(_, duration) => Chain(level, front, neededAt - level.Upper(duration), vs)
      case Transit(_, candidates) =>
        if vs == [] then None
        else
          var v := vs[|vs| - 1];
          if v in candidates && level.Upper(v.alight) <= neededAt
          then Chain(level, front, level.Lower(v.board), vs[..|vs| - 1])
          else None
  }

  /** Among the vehicles that are in time whenever `d` is, the one boarding latest on average is also the one that may be
      boarded latest. */
  predicate LatestIsLast(level: Level, cs: seq<Vehicle>) {
    forall d :: d in cs ==> InTimeLast(level, cs, d)
  }

  predicate InTimeLast(level: Level, cs: seq<Vehicle>, d: Vehicle)
    requires d in cs
  {
    var inTime := Feasible(level, cs, level.Upper(d.alight));
    assert d in inTime;
    forall c :: c in inTime ==> level.Lower(c.board) <= level.Lower(Latest(inTime).board)
  }

  predicate Ordered(level: Level, legs: seq<Leg>) {
    forall leg :: leg in legs && leg.Transit? ==> LatestIsLast(level, leg.candidates)
  }

  /** Enough for that: later on average never means earlier at the low quantile. */
  lemma AgreementSuffices(level: Level, cs: seq<Vehicle>)
    requires forall c, d :: c in cs && d in cs && c.board.mean <= d.board.mean ==> level.Lower(c.board) <= level.Lower(d.board)
    ensures LatestIsLast(level, cs)
  {
    forall d | d in cs ensures InTimeLast(level, cs, d) {
      var inTime := Feasible(level, cs, level.Upper(d.alight));
      assert d in inTime && Latest(inTime) in inTime;
    }
  }

  /** The vehicle in time that alights latest. */
  lemma {:induction false} LastInTime(level: Level, cs: seq<Vehicle>, neededAt: real) returns (d: Vehicle)
    requires Feasible(level, cs, neededAt) != []
    ensures d in cs && level.Upper(d.alight) <= neededAt
    ensures forall c :: c in cs && level.Upper(c.alight) <= neededAt ==> level.Upper(c.alight) <= level.Upper(d.alight)
  {
    var front, last := cs[..|cs| - 1], cs[|cs| - 1];
    assert cs == front + [last];
    if Feasible(level, front, neededAt) == [] {
      d := last;
      forall c | c in front ensures level.Upper(c.alight) > neededAt {
        assert c !in Feasible(level, front, neededAt);
      }
    } else {
      d := LastInTime(level, front, neededAt);
      if level.Upper(last.alight) <= neededAt && level.Upper(last.alight) > level.Upper(d.alight) {
        d := last;
      }
    }
  }

  lemma {:induction false} SameFeasible(level: Level, cs: seq<Vehicle>, a: real, b: real)
    requires forall c :: c in cs ==> (level.Upper(c.alight) <= a <==> level.Upper(c.alight) <= b)
    ensures Feasible(level, cs, a) == Feasible(level, cs, b)
  {
    if cs != [] {
      var front := cs[..|cs| - 1];
      assert forall c :: c in front ==> c in cs;
      SameFeasible(level, front, a, b);
      assert cs[|cs| - 1] in cs;
    }
  }

  /** The chosen vehicle may be boarded no earlier than any other in time. */
  lemma ChosenIsLast(level: Level, cs: seq<Vehicle>, neededAt: real, v: Vehicle)
    requires LatestIsLast(level, cs) && v in cs && level.Upper(v.alight) <= neededAt
    ensures v in Feasible(level, cs, neededAt)
    ensures level.Lower(v.board) <= level.Lower(Latest(Feasible(level, cs, neededAt)).board)
  {
    hide Level.Upper, Level.Lower;
    assert v in Feasible(level, cs, neededAt);
    var d := LastInTime(level, cs, neededAt);
    SameFeasible(level, cs, neededAt, level.Upper(d.alight));
  }

  /** If any chain of vehicles makes it, the choice succeeds and leaves no earlier, even with more time to spend. */
  lemma {:induction false} NoChainLeavesLater(level: Level, legs: seq<Leg>, low: real, neededAt: real, chosen: seq<Chosen>,
                                              vs: seq<Vehicle>)
    requires Ordered(level, legs) && low <= neededAt && Chain(level, legs, low, vs).Some?
    ensures var choice := Back(level, legs, neededAt, chosen);
            choice.Made? && Chain(level, legs, low, vs).value <= choice.leaveAt
    decreases |legs|
  {
    hide Level.Upper, Level.Lower, Level.Cdf, Feasible, Latest, LatestIsLast;
    if legs != [] {
      var front, last := legs[..|legs| - 1], legs[|legs| - 1];
      assert forall leg :: leg in front ==> leg in legs;
      match last
      case Walk(_, duration) =>
        NoChainLeavesLater(level, front, low - level.Upper(duration), neededAt - level.Upper(duration), chosen, vs);
      case Transit(legId, candidates) =>
        var v := vs[|vs| - 1];
        assert last in legs;
        ChosenIsLast(level, candidates, neededAt, v);
        var c := PickFor(level, legId, candidates, neededAt).value;
        NoChainLeavesLater(level, front, level.Lower(v.board), c.beAtStopBy, [c] + chosen, vs[..|vs| - 1]);
    }
  }

  function Vehicles(chosen: seq<Chosen>): (vs: seq<Vehicle>)
    ensures |vs| == |chosen| && forall i :: 0 <= i < |chosen| ==> vs[i] == chosen[i].vehicle
  {
    seq(|chosen|, i requires 0 <= i < |chosen| => chosen[i].vehicle)
  }

  /** What was chosen is itself a chain that works, and it leaves when the advice says. */
  lemma {:induction false} ChoiceIsAChain(level: Level, legs: seq<Leg>, neededAt: real, chosen: seq<Chosen>)
    returns (mine: seq<Chosen>)
    requires Back(level, legs, neededAt, chosen).Made?
    ensures var choice := Back(level, legs, neededAt, chosen);
            choice.chosen == mine + chosen && Chain(level, legs, neededAt, Vehicles(mine)) == Some(choice.leaveAt)
    decreases |legs|
  {
    hide Level.Upper, Level.Lower, Level.Cdf, Latest;
    mine := [];
    if legs == [] {
      assert [] + chosen == chosen;
    } else {
      var front := legs[..|legs| - 1];
      match legs[|legs| - 1]
      case Walk(_, duration) => mine := ChoiceIsAChain(level, front, neededAt - level.Upper(duration), chosen);
      case Transit(legId, candidates) =>
        var c := PickFor(level, legId, candidates, neededAt).value;
        var before := ChoiceIsAChain(level, front, c.beAtStopBy, [c] + chosen);
        mine := before + [c];
        assert mine + chosen == before + ([c] + chosen);
        assert Vehicles(mine)[..|before|] == Vehicles(before);
    }
  }

  /** Complete and optimal: where the latest vehicle on average may also be boarded last, the recommendation fails exactly
      when no chain of vehicles makes the target, and otherwise no chain leaves later. */
  lemma RecommendationIsBest(level: Level, legs: seq<Leg>, target: real)
    requires legs != [] && Ordered(level, legs)
    ensures Recommendation(level, legs, target).Ok? <==> exists vs :: Chain(level, legs, target, vs).Some?
    ensures forall vs :: Chain(level, legs, target, vs).Some? ==>
              var r := Recommendation(level, legs, target);
              r.Ok? && Chain(level, legs, target, vs).value <= r.advice.leaveAt
  {
    if Recommendation(level, legs, target).Ok? {
      var mine := ChoiceIsAChain(level, legs, target, []);
      assert Chain(level, legs, target, Vehicles(mine)).Some?;
    }
    forall vs | Chain(level, legs, target, vs).Some?
      ensures var r := Recommendation(level, legs, target);
              r.Ok? && Chain(level, legs, target, vs).value <= r.advice.leaveAt
    {
      NoChainLeavesLater(level, legs, target, target, [], vs);
    }
  }

  /** No chain of vehicles beats the advice for this target. */
  ghost predicate BestAt(level: Level, legs: seq<Leg>, target: real) {
    forall vs :: Chain(level, legs, target, vs).Some? ==>
      Recommendation(level, legs, target).Ok?
      && Chain(level, legs, target, vs).value <= Recommendation(level, legs, target).advice.leaveAt
  }

  /** On a route of one vehicle the condition is exact: the advice is best for every target if and only if the latest on
      average is the last in time. */
  lemma OneLegIsBestExactlyWhen(level: Level, legId: int, cs: seq<Vehicle>)
    ensures LatestIsLast(level, cs) <==> forall target :: BestAt(level, [Transit(legId, cs)], target)
  {
    hide Chain, Recommendation, Feasible, Level.Upper, Level.Lower;
    var legs := [Transit(legId, cs)];
    if LatestIsLast(level, cs) {
      forall target ensures BestAt(level, legs, target) {
        RecommendationIsBest(level, legs, target);
      }
    } else {
      var target, c := Beaten(level, cs);
      OneChain(level, legId, cs, target, c);
      OneAdvice(level, legId, cs, target);
      assert !BestAt(level, legs, target);
    }
  }

  predicate BuiltFrom(route: seq<Leg>, legs: seq<Leg>) {
    route != [] && forall leg :: leg in route ==> leg in legs
  }

  /** For routes of any length the condition is exact for what the legs can be put together to: the advice is best for
      every target on every route built from them if and only if on each transit leg the latest on average is the last in
      time. */
  lemma BestExactlyWhen(level: Level, legs: seq<Leg>)
    ensures Ordered(level, legs) <==> forall route, target :: BuiltFrom(route, legs) ==> BestAt(level, route, target)
  {
    hide LatestIsLast, BestAt;
    if Ordered(level, legs) {
      forall route, target | BuiltFrom(route, legs) ensures BestAt(level, route, target) {
        OrderedIsBest(level, route, target);
      }
    } else {
      var leg :| leg in legs && leg.Transit? && !LatestIsLast(level, leg.candidates);
      OneLegIsBestExactlyWhen(level, leg.legId, leg.candidates);
      assert leg == Transit(leg.legId, leg.candidates);
      assert BuiltFrom([leg], legs);
    }
  }

  lemma OrderedIsBest(level: Level, legs: seq<Leg>, target: real)
    requires legs != [] && Ordered(level, legs)
    ensures BestAt(level, legs, target)
  {
    hide Ordered, Chain, Recommendation;
    RecommendationIsBest(level, legs, target);
  }

  lemma Beaten(level: Level, cs: seq<Vehicle>) returns (target: real, c: Vehicle)
    requires !LatestIsLast(level, cs)
    ensures c in Feasible(level, cs, target)
    ensures level.Lower(c.board) > level.Lower(Latest(Feasible(level, cs, target)).board)
  {
    hide Level.Upper, Level.Lower;
    var d :| d in cs && !InTimeLast(level, cs, d);
    target := level.Upper(d.alight);
    var inTime := Feasible(level, cs, target);
    assert d in inTime;
    c :| c in inTime && level.Lower(c.board) > level.Lower(Latest(inTime).board);
  }

  lemma OneChain(level: Level, legId: int, cs: seq<Vehicle>, target: real, c: Vehicle)
    requires c in Feasible(level, cs, target)
    ensures Chain(level, [Transit(legId, cs)], target, [c]) == Some(level.Lower(c.board))
  {
    hide Level.Upper, Level.Lower;
    var legs := [Transit(legId, cs)];
    assert legs[..0] == [] && [c][..0] == [];
    assert Chain(level, [], level.Lower(c.board), []) == Some(level.Lower(c.board));
  }

  lemma OneAdvice(level: Level, legId: int, cs: seq<Vehicle>, target: real)
    requires Feasible(level, cs, target) != []
    ensures var r := Recommendation(level, [Transit(legId, cs)], target);
            r.Ok? && r.advice.leaveAt == level.Lower(Latest(Feasible(level, cs, target)).board)
  {
    hide Level.Upper, Level.Lower, Level.Cdf, Feasible, Latest, Success, StopSlack, WalkSlack;
    var legs := [Transit(legId, cs)];
    assert legs[..0] == [];
    var c := PickFor(level, legId, cs, target).value;
    assert Back(level, [], c.beAtStopBy, [c] + []) == Made(c.beAtStopBy, [c] + []);
    assert Back(level, legs, target, []) == Made(c.beAtStopBy, [c] + []);
    hide Back;
  }

  // ---- where the choice falls short --------------------------------------------------------------

  /** A vehicle that is later on average but far less punctual. */
  const Erratic := Vehicle("erratic", Normal(100.0, 80.0), Normal(150.0, 0.0))
  const Steady := Vehicle("steady", Normal(90.0, 0.0), Normal(140.0, 0.0))
  const Feeder := Vehicle("feeder", Normal(20.0, 0.0), Normal(60.0, 0.0))

  /** Without agreement the choice can miss a chain that works: it takes the vehicle that is later on average, has to be
      at the stop so early that no feeder makes it, and gives up. */
  lemma ChoiceCanMissAChain(level: Level)
    requires level.z == 1.0
    ensures var legs := [Transit(1, [Feeder]), Transit(2, [Erratic, Steady])];
            && Recommendation(level, legs, 150.0) == NoFeasibleVehicle(1, 20.0, 1)
            && Chain(level, legs, 150.0, [Feeder, Steady]) == Some(20.0)
  {
    var first, second := Transit(1, [Feeder]), Transit(2, [Erratic, Steady]);
    var legs := [first, second];
    assert legs[..1] == [first] && [first][..0] == [];
    assert level.Upper(Erratic.alight) == 150.0 && level.Upper(Steady.alight) == 140.0 && level.Upper(Feeder.alight) == 60.0;
    assert level.Lower(Erratic.board) == 20.0 && level.Lower(Steady.board) == 90.0 && level.Lower(Feeder.board) == 20.0;
    hide Level.Upper, Level.Lower, Level.Cdf;
    ErraticIsTaken(level);
    NoFeederEarly(level);
    var c := PickFor(level, 2, [Erratic, Steady], 150.0).value;
    assert Back(level, [first], 20.0, [c] + []) == Stuck(1, 20.0, 1);
    assert [Feeder, Steady][..1] == [Feeder] && [Feeder][..0] == [];
    assert Chain(level, [first], 90.0, [Feeder]) == Some(20.0) by {
      assert Chain(level, [], 20.0, []) == Some(20.0);
    }
  }

  lemma ErraticIsTaken(level: Level)
    requires level.Upper(Erratic.alight) <= 150.0 && level.Upper(Steady.alight) <= 150.0
    ensures Feasible(level, [Erratic, Steady], 150.0) == [Erratic, Steady] && Latest([Erratic, Steady]) == Erratic
  {
    hide Level.Upper;
    var both := [Erratic, Steady];
    assert both[..1] == [Erratic] && [Erratic][..0] == [];
    assert Feasible(level, [Erratic], 150.0) == [Erratic];
    assert Latest([Erratic]) == Erratic;
  }

  lemma NoFeederEarly(level: Level)
    requires level.Upper(Feeder.alight) > 20.0
    ensures Feasible(level, [Feeder], 20.0) == []
  {
    hide Level.Upper;
    assert [Feeder][..0] == [];
  }

  // ---- what the numbers add up to ----------------------------------------------------------------

  function WalkMeans(legs: seq<Leg>): real {
    if legs == [] then 0.0
    else WalkMeans(legs[..|legs| - 1]) + if legs[|legs| - 1].Walk? then legs[|legs| - 1].duration.mean else 0.0
  }

  function WalkUppers(level: Level, legs: seq<Leg>): real {
    if legs == [] then 0.0
    else
      WalkUppers(level, legs[..|legs| - 1])
      + if legs[|legs| - 1].Walk? then level.Upper(legs[|legs| - 1].duration) else 0.0
  }

  /** From when each vehicle boards on average to when its rider is needed at the far end. */
  function Rides(chosen: seq<Chosen>): real {
    if chosen == [] then 0.0 else (chosen[0].neededAt - chosen[0].vehicle.board.mean) + Rides(chosen[1..])
  }

  lemma {:induction false} SlackSplits(level: Level, legs: seq<Leg>)
    ensures WalkSlack(level, legs) == WalkUppers(level, legs) - WalkMeans(legs)
  {
    if legs != [] {
      var front, last := legs[..|legs| - 1], legs[|legs| - 1];
      SlackSplits(level, front);
      assert legs == front + [last];
      WalkSlackLast(level, front, last);
    }
  }

  lemma {:induction false} WalkSlackLast(level: Level, legs: seq<Leg>, last: Leg)
    ensures WalkSlack(level, legs + [last])
            == WalkSlack(level, legs) + if last.Walk? then level.Upper(last.duration) - last.duration.mean else 0.0
  {
    hide Level.Upper;
    if legs == [] {
      assert [] + [last] == [last] && [last][1..] == [];
    } else {
      WalkSlackLast(level, legs[1..], last);
      assert (legs + [last])[1..] == legs[1..] + [last];
    }
  }

  lemma {:induction false} TimeAddsUp(level: Level, legs: seq<Leg>, neededAt: real, chosen: seq<Chosen>)
    requires Back(level, legs, neededAt, chosen).Made?
    ensures var choice := Back(level, legs, neededAt, chosen);
            choice.leaveAt + WalkUppers(level, legs) + StopSlack(choice.chosen) + Rides(choice.chosen)
            == neededAt + StopSlack(chosen) + Rides(chosen)
    decreases |legs|
  {
    hide Level.Upper, Level.Lower, Level.Cdf, Latest, Feasible;
    if legs != [] {
      var front := legs[..|legs| - 1];
      match legs[|legs| - 1]
      case Walk(_, duration) => TimeAddsUp(level, front, neededAt - level.Upper(duration), chosen);
      case Transit(legId, candidates) =>
        var c := PickFor(level, legId, candidates, neededAt).value;
        assert ([c] + chosen)[1..] == chosen;
        TimeAddsUp(level, front, c.beAtStopBy, [c] + chosen);
    }
  }

  /** The whole time from leaving to the target is walking on average, riding, and the buffer, and nothing else. */
  lemma TargetDecomposes(level: Level, legs: seq<Leg>, target: real)
    requires Recommendation(level, legs, target).Ok?
    ensures var advice := Recommendation(level, legs, target).advice;
            target - advice.leaveAt == WalkMeans(legs) + Rides(advice.chosen) + advice.buffer
  {
    TimeAddsUp(level, legs, target, []);
    SlackSplits(level, legs);
  }

  // ---- the chance of success ---------------------------------------------------------------------

  function Power(p: real, n: nat): real {
    if n == 0 then 1.0 else Both(p, Power(p, n - 1))
  }

  lemma PhiAt(level: Level, n: Normal, at: real, z: real)
    requires n.stddev > 0.0 && at - n.mean == z * n.stddev
    ensures level.Cdf(n, at) == level.phi(z)
  {
    Divide(z, n.stddev);
  }

  lemma AtLeastP(level: Level, n: Normal, at: real)
    requires level.Sane() && n.stddev >= 0.0 && level.Upper(n) <= at
    ensures level.p <= level.Cdf(n, at) <= 1.0
  {
    if n.stddev > 0.0 {
      Divide(level.z, n.stddev);
      DivideMonotone(level.z * n.stddev, at - n.mean, n.stddev);
      assert level.phi(level.z) <= level.phi((at - n.mean) / n.stddev);
    } else {
      assert level.z * 0.0 == 0.0;
    }
  }

  /** How likely a chosen vehicle is caught and arrives in time. */
  lemma ChosenChances(level: Level, legId: int, v: Vehicle, neededAt: real)
    requires level.Sane() && v.board.stddev > 0.0 && v.alight.stddev >= 0.0 && level.Upper(v.alight) <= neededAt
    ensures var c := Choose(level, legId, v, neededAt);
            c.catches == level.p && level.p <= c.arrives <= 1.0
  {
    PhiAt(level, v.board, level.Lower(v.board), -level.z);
    hide Level.Cdf, Level.Lower;
    AtLeastP(level, v.alight, neededAt);
  }

  lemma Divide(z: real, s: real)
    requires s > 0.0
    ensures (z * s) / s == z
  {
  }

  lemma DivideMonotone(a: real, b: real, s: real)
    requires s > 0.0 && a <= b
    ensures a / s <= b / s
  {
  }

  predicate Uncertain(legs: seq<Leg>) {
    forall leg, v :: leg in legs && leg.Transit? && v in leg.candidates ==> v.board.stddev > 0.0 && v.alight.stddev >= 0.0
  }

  ghost predicate Likely(level: Level, c: Chosen) {
    c.catches == level.p && level.p <= c.arrives <= 1.0
  }

  lemma {:induction false} AllLikely(level: Level, legs: seq<Leg>, neededAt: real, chosen: seq<Chosen>)
    requires level.Sane() && Uncertain(legs) && Back(level, legs, neededAt, chosen).Made?
    requires forall c :: c in chosen ==> Likely(level, c)
    ensures forall c :: c in Back(level, legs, neededAt, chosen).chosen ==> Likely(level, c)
    decreases |legs|
  {
    hide Level.Upper, Level.Lower, Level.Cdf, Level.Sane, Likely;
    if legs != [] {
      var front, last := legs[..|legs| - 1], legs[|legs| - 1];
      assert forall leg :: leg in front ==> leg in legs;
      assert last in legs;
      match last
      case Walk(_, duration) => AllLikely(level, front, neededAt - level.Upper(duration), chosen);
      case Transit(legId, candidates) =>
        var c := PickFor(level, legId, candidates, neededAt).value;
        PickIsLikely(level, legId, candidates, neededAt);
        AllLikely(level, front, c.beAtStopBy, [c] + chosen);
    }
  }

  lemma PickIsLikely(level: Level, legId: int, candidates: seq<Vehicle>, neededAt: real)
    requires level.Sane() && PickFor(level, legId, candidates, neededAt).Some?
    requires forall v :: v in candidates ==> v.board.stddev > 0.0 && v.alight.stddev >= 0.0
    ensures Likely(level, PickFor(level, legId, candidates, neededAt).value)
  {
    hide Level.Sane, Level.Cdf, Level.Upper, Level.Lower;
    var v := Latest(Feasible(level, candidates, neededAt));
    assert v in candidates;
    ChosenChances(level, legId, v, neededAt);
  }

  lemma {:induction false} SuccessBetween(p: real, chosen: seq<Chosen>)
    requires 0.0 < p < 1.0 && forall c :: c in chosen ==> c.catches == p && p <= c.arrives <= 1.0
    ensures 0.0 < Power(p, 2 * |chosen|) <= Success(chosen) <= Power(p, |chosen|)
  {
    hide Power, Both, Success;
    if chosen == [] {
      CertainOfNothing(p);
    } else {
      var c, rest := chosen[0], chosen[1..];
      assert forall x :: x in rest ==> x in chosen;
      assert c in chosen;
      SuccessBetween(p, rest);
      SuccessNext(chosen);
      JointBetween(p, c.arrives);
      PowerTwice(p, |rest|);
      PowerNext(p, |rest|);
      Products(Power(p, 2 * |rest|), Success(rest), Power(p, |rest|), p, Both(c.catches, c.arrives));
    }
  }

  lemma CertainOfNothing(p: real)
    ensures Power(p, 0) == 1.0 && Success([]) == 1.0
  {
  }

  lemma SuccessNext(chosen: seq<Chosen>)
    requires chosen != []
    ensures Success(chosen) == Both(Success(chosen[1..]), Both(chosen[0].catches, chosen[0].arrives))
  {
  }

  lemma JointBetween(p: real, a: real)
    requires 0.0 < p <= a <= 1.0
    ensures Both(p, p) <= Both(p, a) <= p
  {
    Scaled(p, p, a);
    Scaled(p, a, 1.0);
  }

  lemma PowerNext(p: real, n: nat)
    ensures Power(p, n + 1) == Both(p, Power(p, n))
  {
  }

  lemma PowerTwice(p: real, n: nat)
    ensures Power(p, 2 * (n + 1)) == Both(p, Both(p, Power(p, 2 * n)))
  {
    assert 2 * (n + 1) - 1 - 1 == 2 * n;
  }

  lemma Scaled(k: real, a: real, b: real)
    requires 0.0 <= k && a <= b
    ensures k * a <= k * b
  {
  }

  lemma Positive(a: real, b: real)
    requires 0.0 < a && 0.0 < b
    ensures 0.0 < Both(a, b)
  {
  }

  lemma Products(low: real, mid: real, high: real, p: real, joint: real)
    requires 0.0 < low <= mid <= high && 0.0 < p && Both(p, p) <= joint <= p
    ensures 0.0 < Both(p, Both(p, low)) <= Both(mid, joint) <= Both(p, high)
  {
    Positive(p, low);
    Positive(p, Both(p, low));
    Positive(p, p);
    hide Both;
    Lower(low, mid, p, joint);
    Higher(mid, high, p, joint);
  }

  lemma Lower(low: real, mid: real, p: real, joint: real)
    requires 0.0 < low <= mid && 0.0 < Both(p, p) <= joint
    ensures Both(p, Both(p, low)) <= Both(mid, joint)
  {
    calc {
      p * (p * low);
    ==
      low * (p * p);
    <= { Scaled(low, p * p, joint); }
      low * joint;
    ==
      joint * low;
    <= { Scaled(joint, low, mid); }
      joint * mid;
    ==
      mid * joint;
    }
  }

  lemma Higher(mid: real, high: real, p: real, joint: real)
    requires 0.0 < mid <= high && 0.0 < joint <= p
    ensures Both(mid, joint) <= Both(p, high)
  {
    calc {
      mid * joint;
    ==
      joint * mid;
    <= { Scaled(joint, mid, high); }
      joint * high;
    ==
      high * joint;
    <= { Scaled(high, joint, p); }
      high * p;
    }
  }

  /** With k vehicles, none of them exact to the second, the success stated lies between p^2k and p^k. */
  lemma SuccessIsBounded(level: Level, legs: seq<Leg>, target: real)
    requires level.Sane() && Uncertain(legs) && Recommendation(level, legs, target).Ok?
    ensures var advice := Recommendation(level, legs, target).advice;
            Power(level.p, 2 * |advice.chosen|) <= advice.probability <= Power(level.p, |advice.chosen|)
  {
    hide Level.Cdf, Level.Upper, Level.Lower;
    AllLikely(level, legs, target, []);
    SuccessBetween(level.p, Recommendation(level, legs, target).advice.chosen);
  }

  /** A vehicle in time is caught with the level asked for if and only if its departure has any spread; one without is
      reported as never caught, since arriving at the very moment it leaves counts as late. */
  lemma CaughtExactlyWhen(level: Level, legId: int, v: Vehicle, neededAt: real)
    requires level.Sane() && v.Valid() && level.Upper(v.alight) <= neededAt
    ensures var catches := Choose(level, legId, v, neededAt).catches;
            (catches == level.p <==> v.board.stddev > 0.0) && (catches == 0.0 <==> v.board.stddev == 0.0)
  {
    if v.board.stddev > 0.0 {
      hide Level.Cdf;
      ChosenChances(level, legId, v, neededAt);
    } else {
      assert level.z * 0.0 == 0.0;
    }
  }
}
