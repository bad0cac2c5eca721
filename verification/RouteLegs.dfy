/** The legs of a commute route and what replacing them means (RouteLegService.kt, RouteDtos.kt). */
module RouteLegs {
  import opened Basics
  import opened Sorting

  datatype LegType = Walk | Transit

  type Mode = string

  datatype WalkPart = WalkPart(startLat: Option<real>, startLng: Option<real>, endLat: Option<real>, endLng: Option<real>,
                               distanceM: Option<real>) {
    predicate Complete() {
      startLat.Some? && startLng.Some? && endLat.Some? && endLng.Some?
    }
  }

  datatype RidePart = RidePart(line: Option<int>, board: Option<int>, alight: Option<int>, travelSec: Option<int>) {
    predicate Complete() {
      line.Some? && board.Some? && alight.Some? && travelSec.Some?
    }
  }

  const NoWalk := WalkPart(None, None, None, None, None)
  const NoRide := RidePart(None, None, None, None)

  datatype LegRequest = LegRequest(id: Option<int>, seqOrder: int, legType: LegType, walk: WalkPart, ride: RidePart)

  /** A row of route_legs, without its id. */
  datatype Leg = Leg(seqOrder: int, legType: LegType, walk: WalkPart, ride: RidePart)

  /** The known lines and stops, with their modes. */
  datatype Catalog = Catalog(lines: map<int, Mode>, stops: map<int, Mode>)

  datatype LegError = NoLegs | OutOfBounds(seqOrder: int) | NotContiguous | EndsNotWalk | NotAlternating(seqOrder: int)
                    | UnknownLeg(id: int) | RepeatedLeg(id: int) | HasMeasurements(ids: set<int>)
                    | WalkIncomplete(seqOrder: int) | RideNotEmpty(seqOrder: int) | RideIncomplete(seqOrder: int)
                    | WalkNotEmpty(seqOrder: int) | SameStop(seqOrder: int) | UnknownLine(id: int) | UnknownStop(id: int)
                    | WrongMode(seqOrder: int)

  datatype Outcome = Replaced(ids: seq<int>) | Refused(error: LegError)

  // ---- checks of one request ---------------------------------------------------------------------

  predicate Within(x: Option<real>, limit: real) {
    x.Some? ==> -limit <= x.value <= limit
  }

  /** The bean validation of RouteLegRequest. */
  predicate InBounds(r: LegRequest) {
    && r.seqOrder > 0
    && Within(r.walk.startLat, 90.0) && Within(r.walk.startLng, 180.0)
    && Within(r.walk.endLat, 90.0) && Within(r.walk.endLng, 180.0)
    && (r.walk.distanceM.Some? ==> r.walk.distanceM.value > 0.0)
    && (r.ride.travelSec.Some? ==> r.ride.travelSec.value > 0)
  }

  function WalkError(r: LegRequest): Option<LegError> {
    if !r.walk.Complete() then Some(WalkIncomplete(r.seqOrder))
    else if r.ride != NoRide then Some(RideNotEmpty(r.seqOrder))
    else None
  }

  function RideError(catalog: Catalog, r: LegRequest): Option<LegError> {
    if !r.ride.Complete() then Some(RideIncomplete(r.seqOrder))
    else if r.walk != NoWalk then Some(WalkNotEmpty(r.seqOrder))
    else if r.ride.board == r.ride.alight then Some(SameStop(r.seqOrder))
    else if r.ride.line.value !in catalog.lines then Some(UnknownLine(r.ride.line.value))
    else if r.ride.board.value !in catalog.stops then Some(UnknownStop(r.ride.board.value))
    else if r.ride.alight.value !in catalog.stops then Some(UnknownStop(r.ride.alight.value))
    else
      var mode := catalog.lines[r.ride.line.value];
      if catalog.stops[r.ride.board.value] != mode || catalog.stops[r.ride.alight.value] != mode
      then Some(WrongMode(r.seqOrder)) else None
  }

  function FieldError(catalog: Catalog, r: LegRequest): Option<LegError> {
    if r.legType == Walk then WalkError(r) else RideError(catalog, r)
  }

  /** The row that a request asks for: only the part of its type is filled in. */
  function LegOf(r: LegRequest): Leg {
    if r.legType == Walk then Leg(r.seqOrder, Walk, r.walk, NoRide) else Leg(r.seqOrder, Transit, NoWalk, r.ride)
  }

  // ---- the order of the legs ---------------------------------------------------------------------

  predicate BySeq(a: LegRequest, b: LegRequest) {
    a.seqOrder <= b.seqOrder
  }

  function SortBySeq(requests: seq<LegRequest>): (s: seq<LegRequest>)
    ensures |s| == |requests| && multiset(s) == multiset(requests)
  {
    StableSort(requests, BySeq)
  }

  predicate Numbered(ordered: seq<LegRequest>) {
    forall i :: 0 <= i < |ordered| ==> ordered[i].seqOrder == i + 1
  }

  predicate Alternates(ordered: seq<LegRequest>) {
    && ordered != [] && ordered[0].legType == Walk && ordered[|ordered| - 1].legType == Walk
    && forall i :: 1 <= i < |ordered| ==> ordered[i - 1].legType != ordered[i].legType
  }

  predicate InSequence(ordered: seq<LegRequest>) {
    Numbered(ordered) && Alternates(ordered)
  }

  // ---- the table ---------------------------------------------------------------------------------

  /** UNIQUE (commute_route_id, seq_order), for the rows of one route. */
  predicate Unique(rows: map<int, Leg>) {
    forall a, b :: a in rows && b in rows && a != b ==> rows[a].seqOrder != rows[b].seqOrder
  }

  /** CHECK chk_leg_fields. */
  predicate Shaped(leg: Leg) {
    if leg.legType == Walk then
      leg.walk.Complete() && leg.ride.line.None? && leg.ride.board.None? && leg.ride.alight.None?
    else leg.ride.Complete()
  }

  /** What the database insists on after every write. */
  predicate Lawful(rows: map<int, Leg>) {
    Unique(rows) && forall id :: id in rows ==> Shaped(rows[id])
  }

  predicate Positive(rows: map<int, Leg>) {
    forall id :: id in rows ==> rows[id].seqOrder > 0
  }

  // ---- which row a request is about --------------------------------------------------------------

  predicate Named(ordered: seq<LegRequest>, id: int) {
    exists j :: 0 <= j < |ordered| && ordered[j].id == Some(id)
  }

  /** Every id sent is that of a row, and is sent once. */
  predicate NamesRows(rows: map<int, Leg>, ordered: seq<LegRequest>) {
    && (forall i :: 0 <= i < |ordered| && ordered[i].id.Some? ==> ordered[i].id.value in rows)
    && forall i, j :: 0 <= i < j < |ordered| && ordered[i].id.Some? ==> ordered[i].id != ordered[j].id
  }

  /** The first `n` requests are matched to the rows that they name. */
  ghost predicate Matched(rows: map<int, Leg>, ordered: seq<LegRequest>, matched: map<int, int>, taken: set<int>, n: nat) {
    && n <= |ordered|
    && NamesRows(rows, ordered[..n]) && (forall id :: id in taken <==> Named(ordered[..n], id))
    && (forall s :: s in matched <==> 1 <= s <= n && ordered[s - 1].id.Some?)
    && forall s :: s in matched ==> ordered[s - 1].id == Some(matched[s])
  }

  /** One more request. */
  lemma MatchesOne(rows: map<int, Leg>, ordered: seq<LegRequest>, matched: map<int, int>, taken: set<int>, n: nat)
    requires Matched(rows, ordered, matched, taken, n) && n < |ordered|
    ensures ordered[n].id.None? ==> Matched(rows, ordered, matched, taken, n + 1)
    ensures ordered[n].id.Some? && ordered[n].id.value in rows && ordered[n].id.value !in taken ==>
              var id := ordered[n].id.value;
              Matched(rows, ordered, matched[n + 1 := id], taken + {id}, n + 1)
    ensures ordered[n].id.Some? && (ordered[n].id.value !in rows || ordered[n].id.value in taken) ==> !NamesRows(rows, ordered)
  {
    NamedNext(ordered, n);
    NamesNext(rows, ordered, n);
    hide Named, NamesRows;
  }

  lemma MatchesNone(rows: map<int, Leg>, ordered: seq<LegRequest>)
    ensures Matched(rows, ordered, map[], {}, 0)
  {
  }

  lemma MatchesAll(rows: map<int, Leg>, ordered: seq<LegRequest>, matched: map<int, int>, taken: set<int>)
    requires Matched(rows, ordered, matched, taken, |ordered|)
    ensures NamesRows(rows, ordered) && (forall id :: id in taken <==> Named(ordered, id))
    ensures forall s :: s in matched <==> 1 <= s <= |ordered| && ordered[s - 1].id.Some?
    ensures forall s :: s in matched ==> ordered[s - 1].id == Some(matched[s])
  {
    assert ordered[..|ordered|] == ordered;
  }

  lemma NamedNext(ordered: seq<LegRequest>, n: nat)
    requires n < |ordered|
    ensures forall id :: Named(ordered[..n + 1], id) <==> Named(ordered[..n], id) || ordered[n].id == Some(id)
  {
    var front, more := ordered[..n], ordered[..n + 1];
    assert more == front + [ordered[n]];
    forall id ensures Named(more, id) <==> Named(front, id) || ordered[n].id == Some(id) {
      assert more[n] == ordered[n];
      if j :| 0 <= j < |front| && front[j].id == Some(id) {
        assert more[j] == front[j];
      }
      if j :| 0 <= j < |more| && more[j].id == Some(id) {
        assert j < n ==> front[j] == more[j];
      }
    }
  }

  lemma NamesNext(rows: map<int, Leg>, ordered: seq<LegRequest>, n: nat)
    requires n < |ordered| && NamesRows(rows, ordered[..n])
    ensures NamesRows(rows, ordered[..n + 1]) <==>
            ordered[n].id.Some? ==> ordered[n].id.value in rows && !Named(ordered[..n], ordered[n].id.value)
    ensures !NamesRows(rows, ordered[..n + 1]) ==> !NamesRows(rows, ordered)
  {
    var front, more := ordered[..n], ordered[..n + 1];
    assert forall j :: 0 <= j < n ==> front[j] == more[j] == ordered[j];
    assert more[n] == ordered[n];
  }

  /** A row in the place of the request, of its type, that no request names. */
  predicate Fits(rows: map<int, Leg>, ordered: seq<LegRequest>, i: nat, id: int)
    requires i < |ordered|
  {
    && id in rows && rows[id].seqOrder == ordered[i].seqOrder && rows[id].legType == ordered[i].legType
    && !Named(ordered, id)
  }

  /** The row that request `i` changes, if it does not make a new one. */
  ghost function Target(rows: map<int, Leg>, ordered: seq<LegRequest>, i: nat): Option<int>
    requires i < |ordered|
  {
    if ordered[i].id.Some? then ordered[i].id
    else if exists id :: Fits(rows, ordered, i, id) then
      var id :| Fits(rows, ordered, i, id);
      Some(id)
    else None
  }

  lemma TargetIs(rows: map<int, Leg>, ordered: seq<LegRequest>, i: nat, id: int)
    requires i < |ordered| && ordered[i].id.None? && Unique(rows) && Fits(rows, ordered, i, id)
    ensures Target(rows, ordered, i) == Some(id)
  {
    hide Named;
  }

  /** No two requests are about the same row. */
  lemma TargetsDiffer(rows: map<int, Leg>, ordered: seq<LegRequest>, i: nat, j: nat)
    requires i < j < |ordered| && Numbered(ordered) && NamesRows(rows, ordered)
    requires Target(rows, ordered, i).Some?
    ensures Target(rows, ordered, i) != Target(rows, ordered, j)
    ensures Target(rows, ordered, i).value in rows
  {
    assert ordered[i].id.Some? ==> Named(ordered, ordered[i].id.value);
    assert ordered[j].id.Some? ==> Named(ordered, ordered[j].id.value);
  }

  // ---- replacing ---------------------------------------------------------------------------------

  /** A leg with measurements is sent back, with its type. */
  ghost predicate KeepsMeasured(rows: map<int, Leg>, ordered: seq<LegRequest>, measured: set<int>) {
    forall id :: id in rows && id in measured ==>
                   exists i :: 0 <= i < |ordered| && Target(rows, ordered, i) == Some(id) && ordered[i].legType == rows[id].legType
  }

  /** Exactly when the replacement goes through. */
  ghost predicate Accepts(rows: map<int, Leg>, requests: seq<LegRequest>, measured: set<int>, catalog: Catalog) {
    var ordered := SortBySeq(requests);
    && (forall r :: r in requests ==> InBounds(r))
    && InSequence(ordered) && NamesRows(rows, ordered) && KeepsMeasured(rows, ordered, measured)
    && forall i :: 0 <= i < |ordered| ==> FieldError(catalog, ordered[i]).None?
  }

  /** The rows afterwards, where `ids[i]` is the row of request `i`. */
  ghost predicate Placed(before: map<int, Leg>, nextId: int, ordered: seq<LegRequest>, rows: map<int, Leg>, ids: seq<int>) {
    && |ids| == |ordered|
    && (forall i, j :: 0 <= i < j < |ids| ==> ids[i] != ids[j])
    && (forall i :: 0 <= i < |ids| ==> ids[i] in rows && rows[ids[i]] == LegOf(ordered[i]))
    && (forall id :: id in rows ==> id in ids)
    && forall i :: 0 <= i < |ids| ==>
                     match Target(before, ordered, i)
                     case Some(id) => ids[i] == id
                     case None => ids[i] >= nextId
  }

  /** In a table that was replaced, the legs are numbered from 1, walks and rides alternate, and walks come first and last. */
  ghost predicate IsRoute(rows: map<int, Leg>, ids: seq<int>) {
    && ids != [] && (forall id :: id in rows <==> id in ids)
    && (forall i :: 0 <= i < |ids| ==> ids[i] in rows && rows[ids[i]].seqOrder == i + 1)
    && rows[ids[0]].legType == Walk && rows[ids[|ids| - 1]].legType == Walk
    && forall i :: 1 <= i < |ids| ==> rows[ids[i - 1]].legType != rows[ids[i]].legType
  }

  /** A replacement makes a route and keeps every measured leg, with its id and its type. */
  lemma ReplacedIsRoute(before: map<int, Leg>, nextId: int, requests: seq<LegRequest>, measured: set<int>, catalog: Catalog,
                        rows: map<int, Leg>, ids: seq<int>)
    requires Accepts(before, requests, measured, catalog)
    requires Placed(before, nextId, SortBySeq(requests), rows, ids)
    ensures IsRoute(rows, ids) && Lawful(rows) && Positive(rows)
    ensures forall id :: id in before && id in measured ==> id in rows && rows[id].legType == before[id].legType
  {
    hide SortBySeq, Target, NamesRows, InBounds, FieldError, Lawful, Positive;
    PlacedIsLawful(before, nextId, SortBySeq(requests), catalog, rows, ids);
    var ordered := SortBySeq(requests);
    forall id | id in before && id in measured ensures id in rows && rows[id].legType == before[id].legType {
      var i :| 0 <= i < |ordered| && Target(before, ordered, i) == Some(id) && ordered[i].legType == before[id].legType;
      assert ids[i] == id;
    }
  }

  lemma PlacedIsLawful(before: map<int, Leg>, nextId: int, ordered: seq<LegRequest>, catalog: Catalog,
                       rows: map<int, Leg>, ids: seq<int>)
    requires Placed(before, nextId, ordered, rows, ids) && Numbered(ordered)
    requires forall i :: 0 <= i < |ordered| ==> FieldError(catalog, ordered[i]).None?
    ensures Lawful(rows) && Positive(rows)
  {
    hide Target;
    forall id | id in rows ensures Shaped(rows[id]) && rows[id].seqOrder > 0 {
      var i :| 0 <= i < |ids| && ids[i] == id;
      assert FieldError(catalog, ordered[i]).None?;
    }
    hide FieldError, Shaped;
    forall a, b | a in rows && b in rows && a != b ensures rows[a].seqOrder != rows[b].seqOrder {
      var i :| 0 <= i < |ids| && ids[i] == a;
      var j :| 0 <= j < |ids| && ids[j] == b;
    }
  }

  // ---- why no write on the way is refused --------------------------------------------------------

  function Negated(leg: Leg): Leg {
    leg.(seqOrder := -leg.seqOrder)
  }

  /** Some rows are out of the way. */
  function Parked(rows: map<int, Leg>, aside: set<int>): map<int, Leg> {
    map id | id in rows :: if id in aside then Negated(rows[id]) else rows[id]
  }

  /** Whichever rows were moved aside first, the table is lawful in between. */
  lemma ParkedIsLawful(rows: map<int, Leg>, aside: set<int>)
    requires Lawful(rows) && Positive(rows)
    ensures Lawful(Parked(rows, aside))
  {
  }

  /** The legs of `done` have their rows, all other rows wait aside. */
  ghost predicate Placing(rows: map<int, Leg>, waiting: map<int, Leg>, ids: seq<int>, legs: seq<Leg>, done: set<int>) {
    && (forall i :: i in done ==> 0 <= i < |ids| && i < |legs| && ids[i] in rows && rows[ids[i]] == legs[i])
    && waiting.Keys <= rows.Keys
    && forall id :: id in rows ==> (exists i :: i in done && ids[i] == id) || (id in waiting && rows[id] == waiting[id])
  }

  /** Whichever legs came first, the table is lawful in between. */
  lemma PlacingIsLawful(rows: map<int, Leg>, waiting: map<int, Leg>, ids: seq<int>, legs: seq<Leg>, done: set<int>)
    requires Placing(rows, waiting, ids, legs, done) && Lawful(waiting)
    requires forall id :: id in waiting ==> waiting[id].seqOrder < 0
    requires forall i :: 0 <= i < |legs| ==> legs[i].seqOrder == i + 1 && Shaped(legs[i])
    ensures Lawful(rows)
  {
    hide Shaped;
    forall a, b | a in rows && b in rows && a != b ensures rows[a].seqOrder != rows[b].seqOrder {
      if i :| i in done && ids[i] == a {
        if j :| j in done && ids[j] == b {
        }
      }
    }
  }

  lemma PlaceOne(rows: map<int, Leg>, waiting: map<int, Leg>, ids: seq<int>, legs: seq<Leg>, done: set<int>, i: nat)
    requires Placing(rows, waiting, ids, legs, done) && i < |ids| && i < |legs|
    requires forall k :: k in done && 0 <= k < |ids| ==> ids[k] != ids[i]
    ensures Placing(rows[ids[i] := legs[i]], waiting, ids, legs, done + {i})
  {
    forall id | id in rows && id != ids[i]
      ensures (exists k :: k in done + {i} && ids[k] == id) || (id in waiting && rows[id] == waiting[id])
    {
      if k :| k in done && ids[k] == id {
        assert k in done + {i};
      }
    }
    assert i in done + {i};
  }

  /** What the matching found is each request's target. */
  ghost predicate Targets(rows: map<int, Leg>, ordered: seq<LegRequest>, matched: map<int, int>) {
    && (forall s :: s in matched <==> 1 <= s <= |ordered| && Target(rows, ordered, s - 1).Some?)
    && forall s :: s in matched ==> Target(rows, ordered, s - 1) == Some(matched[s])
  }

  /** The rows that stay. */
  function Kept(matched: map<int, int>): set<int> {
    set s | s in matched :: matched[s]
  }

  /** The matching is injective, into the rows. */
  lemma TargetsAreRows(rows: map<int, Leg>, ordered: seq<LegRequest>, matched: map<int, int>)
    requires Numbered(ordered) && NamesRows(rows, ordered) && Targets(rows, ordered, matched)
    ensures forall s :: s in matched ==> matched[s] in rows
    ensures forall s, t :: s in matched && t in matched && s != t ==> matched[s] != matched[t]
  {
    forall s | s in matched ensures matched[s] in rows {
      TargetIsRow(rows, ordered, s - 1);
    }
    hide NamesRows, Target;
    forall s, t | s in matched && t in matched && s != t ensures matched[s] != matched[t] {
      if s < t {
        TargetsDiffer(rows, ordered, s - 1, t - 1);
      } else {
        TargetsDiffer(rows, ordered, t - 1, s - 1);
      }
    }
  }

  lemma TargetIsRow(rows: map<int, Leg>, ordered: seq<LegRequest>, i: nat)
    requires i < |ordered| && NamesRows(rows, ordered) && Target(rows, ordered, i).Some?
    ensures Target(rows, ordered, i).value in rows
  {
    hide Named;
  }

  lemma TargetsInRange(rows: map<int, Leg>, ordered: seq<LegRequest>, matched: map<int, int>)
    requires Targets(rows, ordered, matched)
    ensures forall s :: s in matched ==> 1 <= s <= |ordered|
  {
    hide Target;
  }

  lemma LawfulIsUnique(rows: map<int, Leg>)
    requires Lawful(rows)
    ensures Unique(rows)
  {
  }

  lemma EmptyNeverAccepted(rows: map<int, Leg>, requests: seq<LegRequest>, measured: set<int>, catalog: Catalog)
    requires requests == []
    ensures !Accepts(rows, requests, measured, catalog)
  {
  }

  /** The rows that are not sent back, and those that change their type. */
  function Disturbed(rows: map<int, Leg>, ordered: seq<LegRequest>, matched: map<int, int>): set<int>
    requires forall s :: s in matched ==> 1 <= s <= |ordered| && matched[s] in rows
  {
    (set id | id in rows && id !in Kept(matched))
    + set s | s in matched && rows[matched[s]].legType != ordered[s - 1].legType :: matched[s]
  }

  /** A row stays as it is, apart from its place, when a request of its type is about it. */
  lemma DisturbedExactlyWhen(rows: map<int, Leg>, ordered: seq<LegRequest>, matched: map<int, int>, id: int)
    requires Targets(rows, ordered, matched) && id in rows
    requires forall s :: s in matched ==> 1 <= s <= |ordered| && matched[s] in rows
    requires forall s, t :: s in matched && t in matched && s != t ==> matched[s] != matched[t]
    ensures id !in Disturbed(rows, ordered, matched) <==>
            exists i :: 0 <= i < |ordered| && Target(rows, ordered, i) == Some(id) && ordered[i].legType == rows[id].legType
  {
    hide Target;
    if id !in Disturbed(rows, ordered, matched) {
      var s :| s in matched && matched[s] == id;
      assert Target(rows, ordered, s - 1) == Some(id);
    }
    if i :| 0 <= i < |ordered| && Target(rows, ordered, i) == Some(id) && ordered[i].legType == rows[id].legType {
      assert i + 1 in matched && matched[i + 1] == id;
    }
  }

  lemma DisturbedAreRows(rows: map<int, Leg>, ordered: seq<LegRequest>, matched: map<int, int>)
    requires forall s :: s in matched ==> 1 <= s <= |ordered| && matched[s] in rows
    ensures forall id :: id in Disturbed(rows, ordered, matched) ==> id in rows
  {
  }

  lemma UndisturbedKeeps(rows: map<int, Leg>, ordered: seq<LegRequest>, matched: map<int, int>, measured: set<int>)
    requires Targets(rows, ordered, matched)
    requires forall s :: s in matched ==> 1 <= s <= |ordered| && matched[s] in rows
    requires forall s, t :: s in matched && t in matched && s != t ==> matched[s] != matched[t]
    ensures Disturbed(rows, ordered, matched) * measured == {} <==> KeepsMeasured(rows, ordered, measured)
  {
    hide Target, Targets;
    var disturbed := Disturbed(rows, ordered, matched);
    forall id | id in rows
      ensures id !in disturbed <==> exists i :: 0 <= i < |ordered| && Target(rows, ordered, i) == Some(id)
                                                && ordered[i].legType == rows[id].legType {
      DisturbedExactlyWhen(rows, ordered, matched, id);
    }
    if KeepsMeasured(rows, ordered, measured) {
      forall id | id in measured ensures id !in disturbed {
        if id in rows {
          assert exists i :: 0 <= i < |ordered| && Target(rows, ordered, i) == Some(id) && ordered[i].legType == rows[id].legType;
        }
      }
      assert disturbed * measured == {};
    }
    if disturbed * measured == {} {
      forall id | id in measured ensures id !in disturbed {
        assert id !in disturbed * measured;
      }
    }
  }

  /** Rows that wait aside, the requests they belong to, and the legs to place. */
  predicate Ready(waiting: map<int, Leg>, matched: map<int, int>, legs: seq<Leg>, nextId: int) {
    && Lawful(waiting) && waiting.Keys == Kept(matched)
    && (forall id :: id in waiting ==> waiting[id].seqOrder < 0 && id < nextId)
    && (forall s :: s in matched ==> 1 <= s <= |legs|)
    && (forall s, t :: s in matched && t in matched && s != t ==> matched[s] != matched[t])
    && forall i :: 0 <= i < |legs| ==> legs[i].seqOrder == i + 1 && Shaped(legs[i])
  }

  /** Matched requests have their rows, the others new ones. */
  predicate Assigned(ids: seq<int>, matched: map<int, int>, from: int, next: int) {
    && (forall i, j :: 0 <= i < j < |ids| ==> ids[i] != ids[j])
    && forall i :: 0 <= i < |ids| ==> if i + 1 in matched then ids[i] == matched[i + 1] else from <= ids[i] < next
  }

  /** The first `n` indices of legs without a row. */
  function Unmatched(matched: map<int, int>, n: nat): (s: set<int>)
    ensures forall k :: k in s <==> 0 <= k < n && k + 1 !in matched
  {
    if n == 0 then {} else Unmatched(matched, n - 1) + if n in matched then {} else {n - 1}
  }

  function Below(n: nat): (s: set<int>)
    ensures forall k :: k in s <==> 0 <= k < n
  {
    if n == 0 then {} else Below(n - 1) + {n - 1}
  }

  /** The new legs among the first `|ids|` are inserted. */
  ghost predicate Inserting(rows: map<int, Leg>, waiting: map<int, Leg>, ids: seq<int>, legs: seq<Leg>,
                            matched: map<int, int>, from: int, next: int) {
    && |ids| <= |legs| && from <= next && Assigned(ids, matched, from, next)
    && Placing(rows, waiting, ids, legs, Unmatched(matched, |ids|))
    && forall id :: id in rows ==> id < next
  }

  lemma InsertNone(waiting: map<int, Leg>, legs: seq<Leg>, matched: map<int, int>, from: int)
    requires Ready(waiting, matched, legs, from)
    ensures Inserting(waiting, waiting, [], legs, matched, from, from)
  {
  }

  lemma InsertSkips(rows: map<int, Leg>, waiting: map<int, Leg>, ids: seq<int>, legs: seq<Leg>, matched: map<int, int>,
                    from: int, next: int)
    requires Ready(waiting, matched, legs, from) && Inserting(rows, waiting, ids, legs, matched, from, next)
    requires |ids| + 1 in matched
    ensures Inserting(rows, waiting, ids + [matched[|ids| + 1]], legs, matched, from, next)
  {
    hide Lawful, Shaped, Placing, Assigned;
    var id := matched[|ids| + 1];
    assert Unmatched(matched, |ids| + 1) == Unmatched(matched, |ids|);
    MoreIds(rows, waiting, ids, id, legs, Unmatched(matched, |ids|));
    AssignsOld(ids, matched, from, next, waiting);
  }

  lemma AssignsOld(ids: seq<int>, matched: map<int, int>, from: int, next: int, waiting: map<int, Leg>)
    requires Assigned(ids, matched, from, next) && |ids| + 1 in matched
    requires forall s, t :: s in matched && t in matched && s != t ==> matched[s] != matched[t]
    requires waiting.Keys == Kept(matched) && forall id :: id in waiting ==> id < from
    ensures Assigned(ids + [matched[|ids| + 1]], matched, from, next)
  {
    var id := matched[|ids| + 1];
    assert id in waiting;
    forall i | 0 <= i < |ids| ensures ids[i] != id {
      if i + 1 in matched {
        assert ids[i] == matched[i + 1];
      }
    }
  }

  lemma MoreIds(rows: map<int, Leg>, waiting: map<int, Leg>, ids: seq<int>, id: int, legs: seq<Leg>, done: set<int>)
    requires Placing(rows, waiting, ids, legs, done)
    ensures Placing(rows, waiting, ids + [id], legs, done)
  {
    forall k | k in rows ensures (exists i :: i in done && (ids + [id])[i] == k) || (k in waiting && rows[k] == waiting[k]) {
      if i :| i in done && ids[i] == k {
        assert (ids + [id])[i] == k;
      }
    }
  }

  lemma InsertsOne(rows: map<int, Leg>, waiting: map<int, Leg>, ids: seq<int>, legs: seq<Leg>, matched: map<int, int>,
                   from: int, next: int)
    requires Ready(waiting, matched, legs, from) && Inserting(rows, waiting, ids, legs, matched, from, next)
    requires |ids| < |legs| && |ids| + 1 !in matched
    ensures var rows' := rows[next := legs[|ids|]];
            Lawful(rows') && Inserting(rows', waiting, ids + [next], legs, matched, from, next + 1)
  {
    var done := Unmatched(matched, |ids|);
    assert Unmatched(matched, |ids| + 1) == done + {|ids|};
    MoreIds(rows, waiting, ids, next, legs, done);
    forall k | k in done ensures (ids + [next])[k] != next {
      assert ids[k] in rows;
    }
    PlaceOne(rows, waiting, ids + [next], legs, done, |ids|);
    PlacingIsLawful(rows[next := legs[|ids|]], waiting, ids + [next], legs, done + {|ids|});
    AssignsNew(rows, ids, matched, from, next, waiting);
    hide Lawful, Placing;
  }

  lemma AssignsNew(rows: map<int, Leg>, ids: seq<int>, matched: map<int, int>, from: int, next: int, waiting: map<int, Leg>)
    requires Assigned(ids, matched, from, next) && from <= next && |ids| + 1 !in matched
    requires waiting.Keys == Kept(matched) && forall id :: id in waiting ==> id < from
    ensures Assigned(ids + [next], matched, from, next + 1)
  {
    forall i | 0 <= i < |ids| ensures ids[i] < next {
      if i + 1 in matched {
        assert ids[i] in waiting;
      }
    }
  }

  lemma InsertFits(rows: map<int, Leg>, waiting: map<int, Leg>, ids: seq<int>, legs: seq<Leg>, matched: map<int, int>,
                   from: int, next: int)
    requires Inserting(rows, waiting, ids, legs, matched, from, next)
    ensures next !in rows && from <= next
  {
  }

  lemma AllInserted(rows: map<int, Leg>, waiting: map<int, Leg>, ids: seq<int>, legs: seq<Leg>, matched: map<int, int>,
                    from: int, next: int)
    requires Inserting(rows, waiting, ids, legs, matched, from, next) && |ids| == |legs|
    ensures Moving(rows, waiting, ids, legs, matched, 0) && Assigned(ids, matched, from, next) && from <= next
  {
    assert Unmatched(matched, |legs|) + Below(0) == Unmatched(matched, |legs|);
  }

  /** All new legs are inserted, and the first `n` matched ones moved back. */
  ghost predicate Moving(rows: map<int, Leg>, waiting: map<int, Leg>, ids: seq<int>, legs: seq<Leg>, matched: map<int, int>,
                         n: nat) {
    Placing(rows, waiting, ids, legs, Unmatched(matched, |legs|) + Below(n))
  }

  lemma MovesOne(rows: map<int, Leg>, waiting: map<int, Leg>, ids: seq<int>, legs: seq<Leg>, matched: map<int, int>,
                 from: int, next: int, n: nat)
    requires Ready(waiting, matched, legs, from) && Assigned(ids, matched, from, next) && |ids| == |legs|
    requires Moving(rows, waiting, ids, legs, matched, n) && n < |legs|
    ensures n + 1 !in matched ==> Moving(rows, waiting, ids, legs, matched, n + 1)
    ensures n + 1 in matched ==> ids[n] in rows && Lawful(rows[ids[n] := legs[n]])
    ensures n + 1 in matched ==> Moving(rows[ids[n] := legs[n]], waiting, ids, legs, matched, n + 1)
  {
    var done := Unmatched(matched, |legs|) + Below(n);
    var more := Unmatched(matched, |legs|) + Below(n + 1);
    assert more == done + {n};
    hide Lawful, Shaped, Placing;
    if n + 1 in matched {
      assert ids[n] in waiting;
      PlaceOne(rows, waiting, ids, legs, done, n);
      PlacingIsLawful(rows[ids[n] := legs[n]], waiting, ids, legs, more);
    } else {
      assert more == done;
    }
  }

  lemma AllMoved(rows: map<int, Leg>, waiting: map<int, Leg>, ids: seq<int>, legs: seq<Leg>, matched: map<int, int>,
                 from: int, next: int)
    requires Ready(waiting, matched, legs, from) && Assigned(ids, matched, from, next) && |ids| == |legs|
    requires Moving(rows, waiting, ids, legs, matched, |legs|)
    ensures forall i :: 0 <= i < |ids| ==> ids[i] in rows && rows[ids[i]] == legs[i]
    ensures forall id :: id in rows ==> id in ids
  {
    hide Lawful, Shaped;
    var done := Unmatched(matched, |legs|) + Below(|legs|);
    forall i | 0 <= i < |ids| ensures ids[i] in rows && rows[ids[i]] == legs[i] {
      assert i in done;
    }
    forall id | id in rows ensures id in ids {
      if id in waiting {
        var s :| s in matched && matched[s] == id;
        assert ids[s - 1] == id;
      }
    }
  }

  lemma NotEmpty(s: set<int>)
    requires s != {}
    ensures exists x :: x in s
  {
    assert (forall x :: x !in s) ==> s == {};
  }

  /** The parked rows, without those that go, and the legs that were asked for. */
  lemma WaitingIsReady(before: map<int, Leg>, waiting: map<int, Leg>, matched: map<int, int>, ordered: seq<LegRequest>,
                       legs: seq<Leg>, catalog: Catalog, nextId: int)
    requires Lawful(before) && Positive(before) && Numbered(ordered) && forall id :: id in before ==> id < nextId
    requires forall s :: s in matched ==> 1 <= s <= |ordered| && matched[s] in before
    requires forall s, t :: s in matched && t in matched && s != t ==> matched[s] != matched[t]
    requires forall id :: id in waiting <==> id in before && id in Kept(matched)
    requires forall id :: id in waiting ==> waiting[id] == Parked(before, Kept(matched))[id]
    requires |legs| == |ordered|
    requires forall i :: 0 <= i < |ordered| ==> FieldError(catalog, ordered[i]).None? && legs[i] == LegOf(ordered[i])
    ensures Ready(waiting, matched, legs, nextId)
  {
    assert forall id :: id in waiting.Keys <==> id in Kept(matched);
    assert waiting.Keys == Kept(matched);
    assert forall id :: id in waiting ==> waiting[id] == Negated(before[id]);
  }

  lemma PlacedAll(before: map<int, Leg>, from: int, next: int, ordered: seq<LegRequest>, matched: map<int, int>,
                  rows: map<int, Leg>, legs: seq<Leg>, ids: seq<int>)
    requires Targets(before, ordered, matched) && |ids| == |legs| == |ordered| && Assigned(ids, matched, from, next)
    requires from <= next && forall id :: id in before ==> id < from
    requires forall s :: s in matched ==> 1 <= s <= |ordered| && matched[s] in before
    requires forall i :: 0 <= i < |ids| ==> legs[i] == LegOf(ordered[i]) && ids[i] in rows && rows[ids[i]] == legs[i]
    requires forall id :: id in rows ==> id in ids
    ensures Placed(before, from, ordered, rows, ids) && forall id :: id in rows ==> id < next
  {
    hide Target;
    forall i | 0 <= i < |ids|
      ensures ids[i] < next && if i + 1 in matched then Target(before, ordered, i) == Some(ids[i])
                               else Target(before, ordered, i).None? && ids[i] >= from {
      if i + 1 in matched {
        assert Target(before, ordered, i) == Some(matched[i + 1]);
      } else {
        assert (i + 1) - 1 == i;
      }
    }
  }

  /** Without moving rows aside there would be no way: two legs that swap places cannot be written one after the other. */
  lemma SwappingNeedsParking(rows: map<int, Leg>, a: int, b: int)
    requires a in rows && b in rows && a != b && Lawful(rows)
    ensures !Unique(rows[a := rows[a].(seqOrder := rows[b].seqOrder)])
    ensures !Unique(rows[b := rows[b].(seqOrder := rows[a].seqOrder)])
    ensures Lawful(rows[a := rows[a].(seqOrder := rows[b].seqOrder)][b := rows[b].(seqOrder := rows[a].seqOrder)])
  {
    var a', b' := rows[a].(seqOrder := rows[b].seqOrder), rows[b].(seqOrder := rows[a].seqOrder);
    var first, second := rows[a := a'], rows[b := b'];
    assert first[a].seqOrder == first[b].seqOrder;
    assert second[a].seqOrder == second[b].seqOrder;
  }
}
