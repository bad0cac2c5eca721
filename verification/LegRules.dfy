/** The client's checks of a list of legs, and its drafts of legs (legRules.ts), against what the server accepts. */
module LegRules {
  import opened Basics
  import opened RouteLegs
  import opened Sorting

  datatype Problem = Nothing | SeqOrder(seqOrder: int) | Coordinates(seqOrder: int) | Distance(seqOrder: int)
                   | Travel(seqOrder: int) | Gaps | Ends | SameTypes(seqOrder: int) | Twice(id: int)
                   | NeedsPlaces(seqOrder: int) | RideFields(seqOrder: int) | NeedsLine(seqOrder: int)
                   | NeedsBoard(seqOrder: int) | NeedsAlight(seqOrder: int) | NeedsTravel(seqOrder: int)
                   | WalkFields(seqOrder: int) | OneStop(seqOrder: int)

  predicate IsValidLatLng(lat: real, lng: real) {
    -90.0 <= lat <= 90.0 && -180.0 <= lng <= 180.0
  }

  predicate OffTheMap(lat: Option<real>, lng: Option<real>) {
    (lat.Some? && !IsValidLatLng(lat.value, 0.0)) || (lng.Some? && !IsValidLatLng(0.0, lng.value))
  }

  /** No id is sent twice. */
  predicate IdsOnce(ordered: seq<LegRequest>) {
    forall i, j :: 0 <= i < j < |ordered| && ordered[i].id.Some? ==> ordered[i].id != ordered[j].id
  }

  /** The fields of the request are those of its type. */
  predicate FieldsOk(r: LegRequest) {
    if r.legType == Walk then r.walk.Complete() && r.ride == NoRide
    else r.ride.Complete() && r.walk == NoWalk && r.ride.board != r.ride.alight
  }

  /** What the client asks of a list of requests. */
  predicate Clean(requests: seq<LegRequest>) {
    var ordered := SortBySeq(requests);
    && (forall i :: 0 <= i < |ordered| ==> InBounds(ordered[i]) && FieldsOk(ordered[i]))
    && InSequence(ordered) && IdsOnce(ordered)
  }

  // ---- what is wrong with a list -----------------------------------------------------------------

  /** What is wrong with the ranges of one request. */
  predicate IsRangeProblem(p: Problem, r: LegRequest) {
    match p
    case SeqOrder(n) => n == r.seqOrder && r.seqOrder <= 0
    case Coordinates(n) =>
      n == r.seqOrder && (|| OffTheMap(r.walk.startLat, r.walk.startLng) || OffTheMap(r.walk.endLat, r.walk.endLng))
    case Distance(n) => n == r.seqOrder && r.walk.distanceM.Some? && r.walk.distanceM.value <= 0.0
    case Travel(n) => n == r.seqOrder && r.ride.travelSec.Some? && r.ride.travelSec.value <= 0
    case _ => false
  }

  /** What is wrong with the parts of one request. */
  predicate IsFieldProblem(p: Problem, r: LegRequest) {
    match p
    case NeedsPlaces(n) =>
      && n == r.seqOrder && r.legType == Walk
      && (r.walk.startLat.None? || r.walk.startLng.None? || r.walk.endLat.None? || r.walk.endLng.None?)
    case RideFields(n) =>
      && n == r.seqOrder && r.legType == Walk
      && (r.ride.line.Some? || r.ride.board.Some? || r.ride.alight.Some? || r.ride.travelSec.Some?)
    case NeedsLine(n) => n == r.seqOrder && r.legType == Transit && r.ride.line.None?
    case NeedsBoard(n) => n == r.seqOrder && r.legType == Transit && r.ride.board.None?
    case NeedsAlight(n) => n == r.seqOrder && r.legType == Transit && r.ride.alight.None?
    case NeedsTravel(n) => n == r.seqOrder && r.legType == Transit && r.ride.travelSec.None?
    case WalkFields(n) =>
      && n == r.seqOrder && r.legType == Transit
      && (|| r.walk.startLat.Some? || r.walk.startLng.Some? || r.walk.endLat.Some? || r.walk.endLng.Some?
          || r.walk.distanceM.Some?)
    case OneStop(n) => n == r.seqOrder && r.legType == Transit && r.ride.board.Some? && r.ride.board == r.ride.alight
    case _ => false
  }

  /** What is wrong with the order of the requests. */
  predicate IsOrderProblem(p: Problem, ordered: seq<LegRequest>) {
    match p
    case Gaps => exists i :: 0 <= i < |ordered| && ordered[i].seqOrder != i + 1
    case Ends => ordered != [] && (ordered[0].legType == Transit || ordered[|ordered| - 1].legType == Transit)
    case SameTypes(n) =>
      exists i :: 1 <= i < |ordered| && ordered[i - 1].legType == ordered[i].legType && ordered[i].seqOrder == n
    case _ => false
  }

  /** The id is sent with two of the requests. */
  predicate IsIdProblem(p: Problem, ordered: seq<LegRequest>) {
    p.Twice? && exists i, j :: 0 <= i < j < |ordered| && ordered[i].id == Some(p.id) && ordered[j].id == Some(p.id)
  }

  predicate IsLegProblem(p: Problem, ordered: seq<LegRequest>) {
    || (p.Nothing? && ordered == [])
    || (exists i :: 0 <= i < |ordered| && (IsRangeProblem(p, ordered[i]) || IsFieldProblem(p, ordered[i])))
    || IsOrderProblem(p, ordered) || IsIdProblem(p, ordered)
  }

  // ---- the checks --------------------------------------------------------------------------------

  method BoundsProblems(ordered: seq<LegRequest>) returns (errors: seq<Problem>)
    ensures errors == [] <==> forall i :: 0 <= i < |ordered| ==> InBounds(ordered[i])
    ensures forall p :: p in errors <==> exists i :: 0 <= i < |ordered| && IsRangeProblem(p, ordered[i])
  {
    hide IsRangeProblem, InBounds;
    errors := [];
    for i := 0 to |ordered|
      invariant errors == [] <==> forall k :: 0 <= k < i ==> InBounds(ordered[k])
      invariant forall p :: p in errors <==> exists k :: 0 <= k < i && IsRangeProblem(p, ordered[k])
    {
      var found := RangeProblems(ordered[i]);
      errors := errors + found;
    }
  }

  method RangeProblems(r: LegRequest) returns (found: seq<Problem>)
    ensures found == [] <==> InBounds(r)
    ensures forall p :: p in found <==> IsRangeProblem(p, r)
  {
    found := [];
    if r.seqOrder <= 0 {
      found := found + [SeqOrder(r.seqOrder)];
    }
    if OffTheMap(r.walk.startLat, r.walk.startLng) {
      found := found + [Coordinates(r.seqOrder)];
    }
    if OffTheMap(r.walk.endLat, r.walk.endLng) {
      found := found + [Coordinates(r.seqOrder)];
    }
    if r.walk.distanceM.Some? && r.walk.distanceM.value <= 0.0 {
      found := found + [Distance(r.seqOrder)];
    }
    if r.ride.travelSec.Some? && r.ride.travelSec.value <= 0 {
      found := found + [Travel(r.seqOrder)];
    }
  }

  method OrderProblems(ordered: seq<LegRequest>) returns (errors: seq<Problem>)
    requires ordered != []
    ensures errors == [] <==> InSequence(ordered)
    ensures forall p :: p in errors <==> IsOrderProblem(p, ordered)
  {
    errors := [];
    var i := 0;
    while i < |ordered| && ordered[i].seqOrder == i + 1
      invariant 0 <= i <= |ordered| && forall k :: 0 <= k < i ==> ordered[k].seqOrder == k + 1
    {
      i := i + 1;
    }
    if i < |ordered| {
      errors := errors + [Gaps];
    }
    if ordered[0].legType != Walk || ordered[|ordered| - 1].legType != Walk {
      errors := errors + [Ends];
    }
    for j := 1 to |ordered|
      invariant errors == [] <==> Numbered(ordered) && ordered[0].legType == Walk && ordered[|ordered| - 1].legType == Walk
                                  && forall k :: 1 <= k < j ==> ordered[k - 1].legType != ordered[k].legType
      invariant forall p :: p in errors <==>
                  || ((p.Gaps? || p.Ends?) && IsOrderProblem(p, ordered))
                  || (p.SameTypes? && exists k :: 1 <= k < j && ordered[k - 1].legType == ordered[k].legType
                                                  && ordered[k].seqOrder == p.seqOrder)
    {
      if ordered[j - 1].legType == ordered[j].legType {
        errors := errors + [SameTypes(ordered[j].seqOrder)];
      }
    }
  }

  /** Each id that occurs more than once. */
  method IdProblems(ordered: seq<LegRequest>) returns (errors: seq<Problem>)
    ensures errors == [] <==> IdsOnce(ordered)
    ensures forall p :: p in errors <==> IsIdProblem(p, ordered)
  {
    errors := [];
    for j := 0 to |ordered|
      invariant errors == [] <==> IdsOnce(ordered[..j])
      invariant forall p :: p in errors <==>
                  p.Twice? && exists i, k :: 0 <= i < k < j && ordered[i].id == Some(p.id) && ordered[k].id == Some(p.id)
    {
      var again := false;
      for i := 0 to j
        invariant again <==> exists k :: 0 <= k < i && ordered[k].id.Some? && ordered[k].id == ordered[j].id
      {
        again := again || (ordered[i].id.Some? && ordered[i].id == ordered[j].id);
      }
      OneMoreId(ordered, j);
      if again {
        errors := errors + [Twice(ordered[j].id.value)];
      }
    }
    assert ordered[..|ordered|] == ordered;
  }

  lemma OneMoreId(ordered: seq<LegRequest>, j: nat)
    requires j < |ordered|
    ensures IdsOnce(ordered[..j + 1]) <==>
            IdsOnce(ordered[..j]) && !exists k :: 0 <= k < j && ordered[k].id.Some? && ordered[k].id == ordered[j].id
  {
    var front, more := ordered[..j], ordered[..j + 1];
    assert more == front + [ordered[j]];
    assert forall k :: 0 <= k < j ==> front[k] == more[k] == ordered[k];
    assert more[j] == ordered[j];
    if IdsOnce(more) {
      forall i, k | 0 <= i < k < |front| && front[i].id.Some? ensures front[i].id != front[k].id {
        assert more[i].id != more[k].id;
      }
    }
  }

  method PartProblems(r: LegRequest) returns (found: seq<Problem>)
    ensures found == [] <==> FieldsOk(r)
    ensures forall p :: p in found <==> IsFieldProblem(p, r)
  {
    found := [];
    if r.legType == Walk {
      if !r.walk.Complete() {
        found := found + [NeedsPlaces(r.seqOrder)];
      }
      if r.ride.line.Some? || r.ride.board.Some? || r.ride.alight.Some? || r.ride.travelSec.Some? {
        found := found + [RideFields(r.seqOrder)];
      }
    } else {
      if r.ride.line.None? {
        found := found + [NeedsLine(r.seqOrder)];
      }
      if r.ride.board.None? {
        found := found + [NeedsBoard(r.seqOrder)];
      }
      if r.ride.alight.None? {
        found := found + [NeedsAlight(r.seqOrder)];
      }
      if r.ride.travelSec.None? {
        found := found + [NeedsTravel(r.seqOrder)];
      }
      var w := r.walk;
      if w.startLat.Some? || w.startLng.Some? || w.endLat.Some? || w.endLng.Some? || w.distanceM.Some? {
        found := found + [WalkFields(r.seqOrder)];
      }
      if r.ride.board.Some? && r.ride.board == r.ride.alight {
        found := found + [OneStop(r.seqOrder)];
      }
    }
  }

  method FieldProblems(ordered: seq<LegRequest>) returns (errors: seq<Problem>)
    ensures errors == [] <==> forall i :: 0 <= i < |ordered| ==> FieldsOk(ordered[i])
    ensures forall p :: p in errors <==> exists i :: 0 <= i < |ordered| && IsFieldProblem(p, ordered[i])
  {
    hide IsFieldProblem, FieldsOk;
    errors := [];
    for i := 0 to |ordered|
      invariant errors == [] <==> forall k :: 0 <= k < i ==> FieldsOk(ordered[k])
      invariant forall p :: p in errors <==> exists k :: 0 <= k < i && IsFieldProblem(p, ordered[k])
    {
      var found := PartProblems(ordered[i]);
      errors := errors + found;
    }
  }

  /** All problems at once, and nothing that is not one; none exactly for a list that some server would take. */
  method ValidateLegRequests(requests: seq<LegRequest>) returns (errors: seq<Problem>)
    ensures errors == [] <==> Clean(requests)
    ensures errors == [] <==> exists rows, measured, catalog :: Accepts(rows, requests, measured, catalog)
    ensures forall p :: p in errors <==> IsLegProblem(p, SortBySeq(requests))
  {
    hide InBounds, FieldsOk, IdsOnce, SortBySeq, Accepts, IsOrderProblem, IsIdProblem, IsRangeProblem, IsFieldProblem;
    ClientAgrees(requests);
    if requests == [] {
      EmptyIsUnclean(requests);
      return [Nothing];
    }
    var ordered := SortBySeq(requests);
    var bounds := BoundsProblems(ordered);
    var order := OrderProblems(ordered);
    var ids := IdProblems(ordered);
    var fields := FieldProblems(ordered);
    errors := bounds + order + ids + fields;
  }

  lemma EmptyIsUnclean(requests: seq<LegRequest>)
    requires requests == []
    ensures !Clean(requests) && forall p :: IsLegProblem(p, SortBySeq(requests)) <==> p == Nothing
  {
  }

  // ---- the server agrees -------------------------------------------------------------------------

  lemma SameRequests(requests: seq<LegRequest>)
    ensures forall i :: 0 <= i < |SortBySeq(requests)| ==> SortBySeq(requests)[i] in requests
    ensures forall r :: r in requests ==> r in SortBySeq(requests)
  {
    var ordered := SortBySeq(requests);
    assert multiset(ordered) == multiset(requests);
    forall i | 0 <= i < |ordered| ensures ordered[i] in requests {
      assert ordered[i] in multiset(ordered);
    }
    forall r | r in requests ensures r in ordered {
      assert r in multiset(requests);
    }
  }

  /** What any server takes, whatever its rows, passes here. */
  lemma AcceptedIsClean(rows: map<int, Leg>, requests: seq<LegRequest>, measured: set<int>, catalog: Catalog)
    requires Accepts(rows, requests, measured, catalog)
    ensures Clean(requests)
  {
    SameRequests(requests);
    hide InBounds, SortBySeq, KeepsMeasured, FieldError, FieldsOk;
    var ordered := SortBySeq(requests);
    forall i | 0 <= i < |ordered| ensures InBounds(ordered[i]) && FieldsOk(ordered[i]) {
      assert ordered[i] in requests;
      FieldsAgree(catalog, ordered[i]);
    }
  }

  lemma FieldsAgree(catalog: Catalog, r: LegRequest)
    requires FieldError(catalog, r).None?
    ensures FieldsOk(r)
  {
  }

  function Above(ordered: seq<LegRequest>): (n: int)
    ensures forall i :: 0 <= i < |ordered| && ordered[i].id.Some? ==> ordered[i].id.value < n
  {
    if ordered == [] then 0
    else
      var last := ordered[|ordered| - 1];
      var n := Above(ordered[..|ordered| - 1]);
      if last.id.Some? && last.id.value >= n then last.id.value + 1 else n
  }

  /** The ids sent, and new ones for the rest. */
  function IdsFor(ordered: seq<LegRequest>): (ids: seq<int>)
    ensures |ids| == |ordered|
  {
    var n := Above(ordered);
    seq(|ordered|, i requires 0 <= i < |ordered| => if ordered[i].id.Some? then ordered[i].id.value else n + i)
  }

  /** The legs themselves as rows. */
  function RowsOf(ids: seq<int>, ordered: seq<LegRequest>, n: nat): (rows: map<int, Leg>)
    requires n <= |ids| == |ordered| && forall i, j :: 0 <= i < j < |ids| ==> ids[i] != ids[j]
    ensures forall i :: 0 <= i < n ==> ids[i] in rows && rows[ids[i]] == LegOf(ordered[i])
    ensures forall id :: id in rows ==> exists i :: 0 <= i < n && ids[i] == id
  {
    if n == 0 then map[] else RowsOf(ids, ordered, n - 1)[ids[n - 1] := LegOf(ordered[n - 1])]
  }

  /** All lines and stops that are asked for, of one mode. */
  ghost function CatalogFor(ordered: seq<LegRequest>): Catalog {
    Catalog(map i | 0 <= i < |ordered| && ordered[i].ride.line.Some? :: ordered[i].ride.line.value := "BUS",
            (map i | 0 <= i < |ordered| && ordered[i].ride.board.Some? :: ordered[i].ride.board.value := "BUS")
            + map i | 0 <= i < |ordered| && ordered[i].ride.alight.Some? :: ordered[i].ride.alight.value := "BUS")
  }

  lemma CatalogServes(ordered: seq<LegRequest>, i: nat)
    requires i < |ordered| && FieldsOk(ordered[i])
    ensures FieldError(CatalogFor(ordered), ordered[i]).None?
  {
  }

  /** Each request is about the row with its own id. */
  lemma OwnTarget(rows: map<int, Leg>, ordered: seq<LegRequest>, ids: seq<int>, i: nat)
    requires |ids| == |ordered| && i < |ids| && Numbered(ordered)
    requires forall j, k :: 0 <= j < k < |ids| ==> ids[j] != ids[k]
    requires forall j :: 0 <= j < |ids| && ordered[j].id.Some? ==> ordered[j].id.value == ids[j]
    requires forall j :: 0 <= j < |ids| ==> ids[j] in rows && rows[ids[j]] == LegOf(ordered[j])
    requires Unique(rows)
    ensures Target(rows, ordered, i) == Some(ids[i])
  {
    if ordered[i].id.None? {
      assert !Named(ordered, ids[i]);
      assert Fits(rows, ordered, i, ids[i]);
      TargetIs(rows, ordered, i, ids[i]);
    }
  }

  lemma RowsAreLawful(rows: map<int, Leg>, ordered: seq<LegRequest>, ids: seq<int>)
    requires |ids| == |ordered| && Numbered(ordered)
    requires forall i :: 0 <= i < |ids| ==> ids[i] in rows && rows[ids[i]] == LegOf(ordered[i]) && FieldsOk(ordered[i])
    requires forall id :: id in rows ==> exists i :: 0 <= i < |ids| && ids[i] == id
    ensures Lawful(rows)
  {
    forall id | id in rows ensures Shaped(rows[id]) {
      var i :| 0 <= i < |ids| && ids[i] == id;
    }
    hide FieldsOk, Shaped;
    forall a, b | a in rows && b in rows && a != b ensures rows[a].seqOrder != rows[b].seqOrder {
      var i :| 0 <= i < |ids| && ids[i] == a;
      var j :| 0 <= j < |ids| && ids[j] == b;
    }
  }

  lemma IdsForDiffer(ordered: seq<LegRequest>)
    requires IdsOnce(ordered)
    ensures var ids := IdsFor(ordered); forall i, j :: 0 <= i < j < |ids| ==> ids[i] != ids[j]
  {
  }

  /** What passes here is taken by a server that has a lawful route with those legs, even if all its legs are measured. */
  lemma CleanCanBeAccepted(requests: seq<LegRequest>) returns (rows: map<int, Leg>, ids: seq<int>, catalog: Catalog)
    requires Clean(requests)
    ensures Lawful(rows) && IsRoute(rows, ids) && Accepts(rows, requests, rows.Keys, catalog)
  {
    var ordered := SortBySeq(requests);
    IdsForDiffer(ordered);
    ids := IdsFor(ordered);
    assert forall i :: 0 <= i < |ids| && ordered[i].id.Some? ==> ordered[i].id.value == ids[i];
    hide InBounds, SortBySeq, FieldsOk, FieldError, CatalogFor, IdsFor, RowsOf, Lawful, Shaped, Accepts, IsRoute, Alternates;
    rows := RowsOf(ids, ordered, |ids|);
    catalog := CatalogFor(ordered);
    forall i | 0 <= i < |ids| ensures FieldError(catalog, ordered[i]).None? {
      CatalogServes(ordered, i);
    }
    RowsAreLawful(rows, ordered, ids);
    AcceptsItself(rows, requests, ids, catalog);
  }

  /** The legs of a route, sent to it once more. */
  lemma AcceptsItself(rows: map<int, Leg>, requests: seq<LegRequest>, ids: seq<int>, catalog: Catalog)
    requires Clean(requests) && Lawful(rows)
    requires |ids| == |SortBySeq(requests)| && forall i, j :: 0 <= i < j < |ids| ==> ids[i] != ids[j]
    requires forall i :: 0 <= i < |ids| ==> ids[i] in rows && rows[ids[i]] == LegOf(SortBySeq(requests)[i])
    requires forall i :: 0 <= i < |ids| && SortBySeq(requests)[i].id.Some? ==> SortBySeq(requests)[i].id.value == ids[i]
    requires forall id :: id in rows ==> exists i :: 0 <= i < |ids| && ids[i] == id
    requires forall i :: 0 <= i < |ids| ==> FieldError(catalog, SortBySeq(requests)[i]).None?
    ensures IsRoute(rows, ids) && forall measured :: Accepts(rows, requests, measured, catalog)
    ensures forall i :: 0 <= i < |ids| ==> Target(rows, SortBySeq(requests), i) == Some(ids[i])
  {
    var ordered := SortBySeq(requests);
    RouteOf(rows, ordered, ids);
    LawfulIsUnique(rows);
    hide InBounds, SortBySeq, FieldsOk, FieldError, Target, KeepsMeasured, Shaped, Accepts, Lawful, IsRoute, Alternates;
    forall i | 0 <= i < |ids| ensures Target(rows, ordered, i) == Some(ids[i]) {
      OwnTarget(rows, ordered, ids, i);
    }
    forall measured ensures Accepts(rows, requests, measured, catalog) {
      AllKept(rows, ordered, ids, measured);
      AcceptsClean(rows, requests, measured, catalog);
    }
  }

  lemma RouteOf(rows: map<int, Leg>, ordered: seq<LegRequest>, ids: seq<int>)
    requires |ids| == |ordered| && InSequence(ordered)
    requires forall i :: 0 <= i < |ids| ==> ids[i] in rows && rows[ids[i]] == LegOf(ordered[i])
    requires forall id :: id in rows ==> exists i :: 0 <= i < |ids| && ids[i] == id
    ensures IsRoute(rows, ids)
  {
  }

  lemma AcceptsClean(rows: map<int, Leg>, requests: seq<LegRequest>, measured: set<int>, catalog: Catalog)
    requires Clean(requests) && KeepsMeasured(rows, SortBySeq(requests), measured)
    requires forall i :: 0 <= i < |SortBySeq(requests)| ==> FieldError(catalog, SortBySeq(requests)[i]).None?
    requires var ordered := SortBySeq(requests);
             forall i :: 0 <= i < |ordered| && ordered[i].id.Some? ==> ordered[i].id.value in rows
    ensures Accepts(rows, requests, measured, catalog)
  {
    SameRequests(requests);
    hide InBounds, SortBySeq, FieldError, KeepsMeasured, FieldsOk;
    var ordered := SortBySeq(requests);
    forall r | r in requests ensures InBounds(r) {
      assert r in ordered;
    }
  }

  lemma AllKept(rows: map<int, Leg>, ordered: seq<LegRequest>, ids: seq<int>, measured: set<int>)
    requires |ids| == |ordered| && forall id :: id in rows ==> exists i :: 0 <= i < |ids| && ids[i] == id
    requires forall i :: 0 <= i < |ids| ==> Target(rows, ordered, i) == Some(ids[i])
    requires forall i :: 0 <= i < |ids| ==> ids[i] in rows && rows[ids[i]] == LegOf(ordered[i])
    ensures KeepsMeasured(rows, ordered, measured)
  {
    hide Target;
    forall id | id in rows && id in measured
      ensures exists i :: 0 <= i < |ordered| && Target(rows, ordered, i) == Some(id) && ordered[i].legType == rows[id].legType {
      var i :| 0 <= i < |ids| && ids[i] == id;
      assert Target(rows, ordered, i) == Some(id);
    }
  }

  /** The client finds nothing wrong exactly when there is a server state in which the request goes through. */
  lemma ClientAgrees(requests: seq<LegRequest>)
    ensures Clean(requests) <==> exists rows, measured, catalog :: Accepts(rows, requests, measured, catalog)
  {
    hide Clean, Accepts, Lawful, IsRoute;
    if Clean(requests) {
      var rows, ids, catalog := CleanCanBeAccepted(requests);
    }
    if rows, measured, catalog :| Accepts(rows, requests, measured, catalog) {
      AcceptedIsClean(rows, requests, measured, catalog);
    }
  }

  // ---- drafts ------------------------------------------------------------------------------------

  datatype LatLng = LatLng(lat: real, lng: real)

  datatype LegDraft =
    | WalkDraft(id: Option<int>, start: Option<LatLng>, end: Option<LatLng>, distanceM: Option<real>)
    | TransitDraft(id: Option<int>, line: Option<int>, board: Option<int>, alight: Option<int>, travelSec: Option<int>)

  function PointOf(lat: Option<real>, lng: Option<real>): Option<LatLng> {
    if lat.Some? && lng.Some? then Some(LatLng(lat.value, lng.value)) else None
  }

  function LatOf(p: Option<LatLng>): Option<real> {
    if p.Some? then Some(p.value.lat) else None
  }

  function LngOf(p: Option<LatLng>): Option<real> {
    if p.Some? then Some(p.value.lng) else None
  }

  /** The draft of a leg that the server sent. */
  function DraftOf(leg: LegRequest): LegDraft {
    if leg.legType == Walk then
      WalkDraft(leg.id, PointOf(leg.walk.startLat, leg.walk.startLng), PointOf(leg.walk.endLat, leg.walk.endLng),
                leg.walk.distanceM)
    else TransitDraft(leg.id, leg.ride.line, leg.ride.board, leg.ride.alight, leg.ride.travelSec)
  }

  function DraftsFromLegs(legs: seq<LegRequest>): (drafts: seq<LegDraft>)
    ensures |drafts| == |legs|
  {
    var ordered := SortBySeq(legs);
    seq(|ordered|, i requires 0 <= i < |ordered| => DraftOf(ordered[i]))
  }

  function RequestOf(d: LegDraft, seqOrder: int): LegRequest {
    match d
    case WalkDraft(id, start, end, distanceM) =>
      LegRequest(id, seqOrder, Walk, WalkPart(LatOf(start), LngOf(start), LatOf(end), LngOf(end), distanceM), NoRide)
    case TransitDraft(id, line, board, alight, travelSec) =>
      LegRequest(id, seqOrder, Transit, NoWalk, RidePart(line, board, alight, travelSec))
  }

  function ToLegRequests(drafts: seq<LegDraft>): (requests: seq<LegRequest>)
    ensures |requests| == |drafts|
  {
    seq(|drafts|, i requires 0 <= i < |drafts| => RequestOf(drafts[i], i + 1))
  }

  /** The legs as the server sends them. */
  function Response(ids: seq<int>, rows: map<int, Leg>): (legs: seq<LegRequest>)
    requires forall i :: 0 <= i < |ids| ==> ids[i] in rows
    ensures |legs| == |ids|
  {
    seq(|ids|, i requires 0 <= i < |ids| =>
      var leg := rows[ids[i]];
      LegRequest(Some(ids[i]), leg.seqOrder, leg.legType, leg.walk, leg.ride))
  }

  /** A draft of a proper leg becomes that leg again. */
  lemma DraftReturns(leg: LegRequest)
    requires FieldsOk(leg)
    ensures RequestOf(DraftOf(leg), leg.seqOrder) == leg
  {
  }

  lemma DraftsReturn(legs: seq<LegRequest>)
    requires Numbered(legs) && forall i :: 0 <= i < |legs| ==> FieldsOk(legs[i])
    ensures ToLegRequests(DraftsFromLegs(legs)) == legs && SortBySeq(legs) == legs
  {
    SortedStays(legs, BySeq);
    hide FieldsOk, SortBySeq, RequestOf, DraftOf;
    var again := ToLegRequests(DraftsFromLegs(legs));
    forall i | 0 <= i < |legs| ensures again[i] == legs[i] {
      DraftReturns(legs[i]);
    }
    assert again == legs;
  }

  lemma SentLeg(catalog: Catalog, r: LegRequest, id: int)
    requires InBounds(r) && FieldError(catalog, r).None?
    ensures var leg := LegOf(r);
            var sent := LegRequest(Some(id), leg.seqOrder, leg.legType, leg.walk, leg.ride);
            InBounds(sent) && FieldsOk(sent) && FieldError(catalog, sent).None? && LegOf(sent) == leg
  {
  }

  /** A clean list in order, of rows that are as it asks. */
  predicate Proper(legs: seq<LegRequest>, ids: seq<int>, rows: map<int, Leg>, catalog: Catalog) {
    && InSequence(legs) && IdsOnce(legs) && |legs| == |ids|
    && (forall id :: id in rows ==> id in ids)
    && forall i :: 0 <= i < |legs| ==>
                     && InBounds(legs[i]) && FieldsOk(legs[i]) && FieldError(catalog, legs[i]).None?
                     && legs[i].id == Some(ids[i]) && ids[i] in rows && LegOf(legs[i]) == rows[ids[i]]
  }

  /** What a server that took a request sends back is clean and in order. */
  lemma ResponseIsClean(before: map<int, Leg>, nextId: int, requests: seq<LegRequest>, measured: set<int>, catalog: Catalog,
                        rows: map<int, Leg>, ids: seq<int>)
    requires Accepts(before, requests, measured, catalog) && Placed(before, nextId, SortBySeq(requests), rows, ids)
    ensures Proper(Response(ids, rows), ids, rows, catalog)
  {
    SameRequests(requests);
    hide SortBySeq, InBounds, FieldError, KeepsMeasured, NamesRows, Target, Alternates, Proper;
    var ordered := SortBySeq(requests);
    forall i | 0 <= i < |ordered| ensures InBounds(ordered[i]) {
      assert ordered[i] in requests;
    }
    SentLegs(ordered, catalog, rows, ids);
  }

  lemma SentLegs(ordered: seq<LegRequest>, catalog: Catalog, rows: map<int, Leg>, ids: seq<int>)
    requires InSequence(ordered) && |ids| == |ordered|
    requires forall i :: 0 <= i < |ordered| ==> InBounds(ordered[i]) && FieldError(catalog, ordered[i]).None?
    requires forall i :: 0 <= i < |ids| ==> ids[i] in rows && rows[ids[i]] == LegOf(ordered[i])
    requires (forall i, j :: 0 <= i < j < |ids| ==> ids[i] != ids[j]) && forall id :: id in rows ==> id in ids
    ensures Proper(Response(ids, rows), ids, rows, catalog)
  {
    hide InBounds, FieldsOk, FieldError;
    var legs := Response(ids, rows);
    forall i | 0 <= i < |legs|
      ensures InBounds(legs[i]) && FieldsOk(legs[i]) && FieldError(catalog, legs[i]).None? && LegOf(legs[i]) == rows[ids[i]]
      ensures legs[i].seqOrder == i + 1 && legs[i].legType == ordered[i].legType {
      SentLeg(catalog, ordered[i], ids[i]);
    }
  }

  lemma ProperReturns(legs: seq<LegRequest>, ids: seq<int>, rows: map<int, Leg>, catalog: Catalog)
    requires Proper(legs, ids, rows, catalog)
    ensures ToLegRequests(DraftsFromLegs(legs)) == legs && SortBySeq(legs) == legs
    ensures Clean(legs)
  {
    hide FieldsOk, InBounds, FieldError, Alternates, SortBySeq, ToLegRequests, DraftsFromLegs;
    DraftsReturn(legs);
  }

  lemma ProperAccepted(legs: seq<LegRequest>, ids: seq<int>, rows: map<int, Leg>, catalog: Catalog)
    requires Proper(legs, ids, rows, catalog) && Lawful(rows)
    ensures forall measured :: Accepts(rows, legs, measured, catalog)
    ensures forall i :: 0 <= i < |ids| ==> Target(rows, legs, i) == Some(ids[i])
  {
    ProperReturns(legs, ids, rows, catalog);
    ProperRows(legs, ids, rows, catalog);
    hide Proper, Clean, Lawful, Accepts, Target, SortBySeq, FieldError, IsRoute, ToLegRequests, DraftsFromLegs;
    AcceptsItself(rows, legs, ids, catalog);
  }

  lemma ProperRows(legs: seq<LegRequest>, ids: seq<int>, rows: map<int, Leg>, catalog: Catalog)
    requires Proper(legs, ids, rows, catalog)
    ensures |legs| == |ids| && forall i, j :: 0 <= i < j < |ids| ==> ids[i] != ids[j]
    ensures forall i :: 0 <= i < |ids| ==> ids[i] in rows && rows[ids[i]] == LegOf(legs[i])
    ensures forall i :: 0 <= i < |ids| ==> legs[i].id == Some(ids[i]) && FieldError(catalog, legs[i]).None?
    ensures forall id :: id in rows ==> exists i :: 0 <= i < |ids| && ids[i] == id
  {
    hide InBounds, FieldsOk, FieldError, Alternates;
    forall i, j | 0 <= i < j < |ids| ensures ids[i] != ids[j] {
      assert legs[i].id != legs[j].id;
    }
  }

  /** Saving the drafts of what the server sent is accepted, whatever is measured, and changes nothing: the rows and their
      ids stay. */
  lemma SavedAgain(before: map<int, Leg>, nextId: int, requests: seq<LegRequest>, measured: set<int>, catalog: Catalog,
                   rows: map<int, Leg>, ids: seq<int>)
    requires Accepts(before, requests, measured, catalog) && Placed(before, nextId, SortBySeq(requests), rows, ids)
    ensures var again := ToLegRequests(DraftsFromLegs(Response(ids, rows)));
            && (forall now :: Accepts(rows, again, now, catalog))
            && forall n, rows', ids' :: Placed(rows, n, SortBySeq(again), rows', ids') ==> rows' == rows && ids' == ids
  {
    ResponseIsClean(before, nextId, requests, measured, catalog, rows, ids);
    ReplacedIsRoute(before, nextId, requests, measured, catalog, rows, ids);
    var legs := Response(ids, rows);
    ProperReturns(legs, ids, rows, catalog);
    ProperAccepted(legs, ids, rows, catalog);
    ProperRows(legs, ids, rows, catalog);
    hide *;
    forall n, rows', ids' | Placed(rows, n, legs, rows', ids') ensures rows' == rows && ids' == ids {
      StaysTheSame(rows, n, legs, ids, rows', ids');
    }
  }

  lemma StaysTheSame(rows: map<int, Leg>, n: int, legs: seq<LegRequest>, ids: seq<int>, rows': map<int, Leg>, ids': seq<int>)
    requires Placed(rows, n, legs, rows', ids') && |legs| == |ids|
    requires forall i :: 0 <= i < |ids| ==> Target(rows, legs, i) == Some(ids[i])
    requires forall i :: 0 <= i < |ids| ==> ids[i] in rows && rows[ids[i]] == LegOf(legs[i])
    requires forall id :: id in rows ==> id in ids
    ensures rows' == rows && ids' == ids
  {
    hide Target;
    assert ids' == ids;
    forall id ensures id in rows' <==> id in rows {
      if id in rows {
        var i :| 0 <= i < |ids| && ids[i] == id;
      }
      if id in rows' {
        var i :| 0 <= i < |ids'| && ids'[i] == id;
      }
    }
    forall id | id in rows' ensures rows'[id] == rows[id] {
      var i :| 0 <= i < |ids'| && ids'[i] == id;
    }
  }
}
