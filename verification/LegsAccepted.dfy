/** What the server takes when the legs of a route are replaced, said of the requests, the table and the catalog alone. */
module LegsAccepted {
  import opened Basics
  import opened Sorting
  import opened RouteLegs
  import opened LegRules

  // ---- in plain words ----------------------------------------------------------------------------

  predicate OnMap(lat: Option<real>, lng: Option<real>) {
    (lat.Some? ==> -90.0 <= lat.value <= 90.0) && (lng.Some? ==> -180.0 <= lng.value <= 180.0)
  }

  predicate PartsInRange(r: LegRequest) {
    && OnMap(r.walk.startLat, r.walk.startLng) && OnMap(r.walk.endLat, r.walk.endLng)
    && (r.walk.distanceM.Some? ==> 0.0 < r.walk.distanceM.value)
    && (r.ride.travelSec.Some? ==> 0 < r.ride.travelSec.value)
  }

  /** A walk from one place to another. */
  predicate IsWalk(walk: WalkPart, ride: RidePart) {
    && walk.startLat.Some? && walk.startLng.Some? && walk.endLat.Some? && walk.endLng.Some?
    && ride.line.None? && ride.board.None? && ride.alight.None? && ride.travelSec.None?
  }

  /** A ride on a known line between two different known stops, all three of one mode. */
  predicate IsRide(catalog: Catalog, walk: WalkPart, ride: RidePart) {
    && walk.startLat.None? && walk.startLng.None? && walk.endLat.None? && walk.endLng.None? && walk.distanceM.None?
    && ride.line.Some? && ride.board.Some? && ride.alight.Some? && ride.travelSec.Some?
    && ride.board.value != ride.alight.value
    && ride.line.value in catalog.lines && ride.board.value in catalog.stops && ride.alight.value in catalog.stops
    && catalog.lines[ride.line.value] == catalog.stops[ride.board.value] == catalog.stops[ride.alight.value]
  }

  predicate PartsFit(catalog: Catalog, legType: LegType, walk: WalkPart, ride: RidePart) {
    if legType == Walk then IsWalk(walk, ride) else IsRide(catalog, walk, ride)
  }

  predicate AskedFor(requests: seq<LegRequest>, place: int) {
    exists r :: r in requests && r.seqOrder == place
  }

  /** Places 1 to an odd number are each asked for, walks at the odd ones and rides at the even ones. */
  ghost predicate FillsPlaces(requests: seq<LegRequest>) {
    && |requests| % 2 == 1
    && (forall place :: 1 <= place <= |requests| ==> AskedFor(requests, place))
    && forall r :: r in requests ==> (r.legType == Walk <==> r.seqOrder % 2 == 1)
  }

  /** The row with the id of the request; or, for a request without id, the row in its place and of its type, if no
      request has the id of that row. */
  predicate SendsBack(rows: map<int, Leg>, requests: seq<LegRequest>, r: LegRequest, id: int)
    requires id in rows
  {
    || r.id == Some(id)
    || (&& r.id.None? && r.seqOrder == rows[id].seqOrder && r.legType == rows[id].legType
        && forall other :: other in requests ==> other.id != Some(id))
  }

  ghost predicate Returned(rows: map<int, Leg>, requests: seq<LegRequest>, id: int)
    requires id in rows
  {
    exists r :: r in requests && SendsBack(rows, requests, r, id) && r.legType == rows[id].legType
  }

  ghost predicate Acceptable(rows: map<int, Leg>, requests: seq<LegRequest>, measured: set<int>, catalog: Catalog) {
    && FillsPlaces(requests)
    && (forall r :: r in requests ==> PartsInRange(r) && PartsFit(catalog, r.legType, r.walk, r.ride))
    && (forall r :: r in requests && r.id.Some? ==> r.id.value in rows)
    && (forall r, other :: r in requests && other in requests && r.id.Some? && r.id == other.id ==> r == other)
    && forall id :: id in rows && id in measured ==> Returned(rows, requests, id)
  }

  // ---- places and order --------------------------------------------------------------------------

  lemma {:induction false} KeysAreFew(s: seq<LegRequest>) returns (keys: set<int>)
    ensures |keys| <= |s| && forall r :: r in s ==> r.seqOrder in keys
  {
    if s == [] {
      keys := {};
    } else {
      var rest := KeysAreFew(s[1..]);
      keys := rest + {s[0].seqOrder};
      assert s == [s[0]] + s[1..];
    }
  }

  function Range(from: int, until: int): (r: set<int>)
    requires from <= until
    ensures |r| == until - from && forall k :: k in r <==> from < k <= until
    decreases until - from
  {
    if from == until then {} else Range(from, until - 1) + {until}
  }

  lemma RangeNeedsRoom(s: seq<LegRequest>, n: nat)
    requires forall place :: 1 <= place <= n ==> AskedFor(s, place)
    ensures n <= |s|
  {
    var keys := KeysAreFew(s);
    forall place | place in Range(0, n) ensures place in keys {
      assert AskedFor(s, place);
      var r :| r in s && r.seqOrder == place;
    }
    assert keys == Range(0, n) + (keys - Range(0, n));
  }

  /** A sorted list of that length with all those places has them in order. */
  lemma {:induction false} SortedIsNumbered(s: seq<LegRequest>)
    requires Sorted(s, BySeq)
    requires forall place :: 1 <= place <= |s| ==> AskedFor(s, place)
    ensures Numbered(s)
  {
    if s != [] {
      var n := |s|;
      var front, last := s[..n - 1], s[n - 1];
      assert s == front + [last];
      if last.seqOrder != n {
        forall place | 1 <= place <= n ensures AskedFor(front, place) {
          assert AskedFor(s, place);
          var r :| r in s && r.seqOrder == place;
          assert r != last by {
            assert AskedFor(s, n);
            var top :| top in s && top.seqOrder == n;
            var i :| 0 <= i < n && s[i] == top;
            assert i < n - 1 ==> BySeq(s[i], s[n - 1]);
          }
        }
        RangeNeedsRoom(front, n);
      } else {
        forall place | 1 <= place <= n - 1 ensures AskedFor(front, place) {
          assert AskedFor(s, place);
          var r :| r in s && r.seqOrder == place;
        }
        SortedIsNumbered(front);
      }
    }
  }

  lemma BySeqOrders()
    ensures Orders(BySeq)
  {
  }

  lemma {:induction false} WalksAtOddPlaces(ordered: seq<LegRequest>, i: nat)
    requires InSequence(ordered) && i < |ordered|
    ensures ordered[i].legType == Walk <==> i % 2 == 0
  {
    if i > 0 {
      WalksAtOddPlaces(ordered, i - 1);
    }
  }

  lemma SequenceFills(requests: seq<LegRequest>)
    ensures InSequence(SortBySeq(requests)) <==> FillsPlaces(requests)
  {
    var ordered := SortBySeq(requests);
    SameRequests(requests);
    BySeqOrders();
    SortSorts(requests, BySeq);
    hide SortBySeq, Orders;
    if InSequence(ordered) {
      InSequenceFills(requests, ordered);
    }
    if FillsPlaces(requests) {
      FillsInSequence(requests, ordered);
    }
  }

  lemma InSequenceFills(requests: seq<LegRequest>, ordered: seq<LegRequest>)
    requires InSequence(ordered) && |ordered| == |requests|
    requires (forall i :: 0 <= i < |ordered| ==> ordered[i] in requests) && forall r :: r in requests ==> r in ordered
    ensures FillsPlaces(requests)
  {
    WalksAtOddPlaces(ordered, |ordered| - 1);
    forall place | 1 <= place <= |requests| ensures AskedFor(requests, place) {
      assert ordered[place - 1] in requests;
    }
    forall r | r in requests ensures r.legType == Walk <==> r.seqOrder % 2 == 1 {
      var i: nat :| i < |ordered| && ordered[i] == r;
      WalksAtOddPlaces(ordered, i);
    }
  }

  lemma FillsInSequence(requests: seq<LegRequest>, ordered: seq<LegRequest>)
    requires FillsPlaces(requests) && |ordered| == |requests| && Sorted(ordered, BySeq)
    requires (forall i :: 0 <= i < |ordered| ==> ordered[i] in requests) && forall r :: r in requests ==> r in ordered
    ensures InSequence(ordered)
  {
    forall place | 1 <= place <= |ordered| ensures AskedFor(ordered, place) {
      assert AskedFor(requests, place);
      var r :| r in requests && r.seqOrder == place;
    }
    SortedIsNumbered(ordered);
  }

  // ---- accepted exactly when ---------------------------------------------------------------------

  lemma FieldsFit(catalog: Catalog, r: LegRequest)
    ensures FieldError(catalog, r).None? <==> PartsFit(catalog, r.legType, r.walk, r.ride)
    ensures r.seqOrder > 0 ==> (InBounds(r) <==> PartsInRange(r))
  {
  }

  predicate SameMembers(requests: seq<LegRequest>, ordered: seq<LegRequest>) {
    && (forall i :: 0 <= i < |ordered| ==> ordered[i] in requests)
    && forall r :: r in requests ==> r in ordered
  }

  predicate PartsOk(catalog: Catalog, requests: seq<LegRequest>) {
    forall r :: r in requests ==> PartsInRange(r) && PartsFit(catalog, r.legType, r.walk, r.ride)
  }

  predicate IdsOk(rows: map<int, Leg>, requests: seq<LegRequest>) {
    && (forall r :: r in requests && r.id.Some? ==> r.id.value in rows)
    && forall r, other :: r in requests && other in requests && r.id.Some? && r.id == other.id ==> r == other
  }

  lemma PartsAgree(requests: seq<LegRequest>, ordered: seq<LegRequest>, catalog: Catalog)
    requires SameMembers(requests, ordered) && Numbered(ordered)
    ensures (forall r :: r in requests ==> InBounds(r)) && (forall i :: 0 <= i < |ordered| ==> FieldError(catalog, ordered[i]).None?)
            <==> PartsOk(catalog, requests)
  {
    hide InBounds, FieldError, PartsFit, PartsInRange;
    forall r | r in requests
      ensures InBounds(r) <==> PartsInRange(r)
      ensures FieldError(catalog, r).None? <==> PartsFit(catalog, r.legType, r.walk, r.ride)
    {
      var i :| 0 <= i < |ordered| && ordered[i] == r;
      FieldsFit(catalog, r);
    }
  }

  lemma NamesAgree(rows: map<int, Leg>, requests: seq<LegRequest>, ordered: seq<LegRequest>)
    requires SameMembers(requests, ordered) && Numbered(ordered)
    ensures NamesRows(rows, ordered) <==> IdsOk(rows, requests)
  {
    if NamesRows(rows, ordered) {
      forall r, other | r in requests && other in requests && r.id.Some? && r.id == other.id ensures r == other {
        var i :| 0 <= i < |ordered| && ordered[i] == r;
        var j :| 0 <= j < |ordered| && ordered[j] == other;
      }
    }
    if IdsOk(rows, requests) {
      forall i, j | 0 <= i < j < |ordered| && ordered[i].id.Some? ensures ordered[i].id != ordered[j].id {
        assert ordered[i] in requests && ordered[j] in requests && ordered[i] != ordered[j];
      }
    }
  }

  lemma NamedAgrees(requests: seq<LegRequest>, ordered: seq<LegRequest>, id: int)
    requires SameMembers(requests, ordered)
    ensures Named(ordered, id) <==> exists other :: other in requests && other.id == Some(id)
  {
    if Named(ordered, id) {
      var j :| 0 <= j < |ordered| && ordered[j].id == Some(id);
      assert ordered[j] in requests;
    }
    if other :| other in requests && other.id == Some(id) {
      var j :| 0 <= j < |ordered| && ordered[j] == other;
    }
  }

  lemma TargetAgrees(rows: map<int, Leg>, requests: seq<LegRequest>, ordered: seq<LegRequest>, i: nat, id: int)
    requires SameMembers(requests, ordered) && Unique(rows) && i < |ordered| && id in rows
    ensures Target(rows, ordered, i) == Some(id) <==> SendsBack(rows, requests, ordered[i], id)
  {
    NamedAgrees(requests, ordered, id);
    hide Named, SameMembers;
    if ordered[i].id.None? && Fits(rows, ordered, i, id) {
      TargetIs(rows, ordered, i, id);
    }
  }

  lemma KeptAgrees(rows: map<int, Leg>, requests: seq<LegRequest>, ordered: seq<LegRequest>, measured: set<int>)
    requires SameMembers(requests, ordered) && Unique(rows)
    ensures KeepsMeasured(rows, ordered, measured)
            <==> forall id :: id in rows && id in measured ==> Returned(rows, requests, id)
  {
    hide Target, SendsBack, Unique;
    forall id | id in rows
      ensures Returned(rows, requests, id) <==>
              exists i :: 0 <= i < |ordered| && Target(rows, ordered, i) == Some(id) && ordered[i].legType == rows[id].legType
    {
      RowAgrees(rows, requests, ordered, id);
    }
  }

  lemma RowAgrees(rows: map<int, Leg>, requests: seq<LegRequest>, ordered: seq<LegRequest>, id: int)
    requires SameMembers(requests, ordered) && Unique(rows) && id in rows
    ensures Returned(rows, requests, id) <==>
            exists i :: 0 <= i < |ordered| && Target(rows, ordered, i) == Some(id) && ordered[i].legType == rows[id].legType
  {
    hide Target, SendsBack, Unique;
    if Returned(rows, requests, id) {
      var r :| r in requests && SendsBack(rows, requests, r, id) && r.legType == rows[id].legType;
      var i: nat :| i < |ordered| && ordered[i] == r;
      TargetAgrees(rows, requests, ordered, i, id);
    }
    if i: nat :| i < |ordered| && Target(rows, ordered, i) == Some(id) && ordered[i].legType == rows[id].legType {
      TargetAgrees(rows, requests, ordered, i, id);
      assert ordered[i] in requests;
    }
  }

  /** The server takes exactly the lists that fill the places, with parts that fit their types and the catalog, whose
      ids are those of rows, each once, and which send every measured leg back with its type. */
  lemma AcceptsExactlyWhen(rows: map<int, Leg>, requests: seq<LegRequest>, measured: set<int>, catalog: Catalog)
    requires Unique(rows)
    ensures Accepts(rows, requests, measured, catalog) <==> Acceptable(rows, requests, measured, catalog)
  {
    hide InSequence, FillsPlaces, NamesRows, KeepsMeasured, FieldError, InBounds, PartsFit, PartsInRange, Returned;
    var ordered := SortBySeq(requests);
    SequenceFills(requests);
    SameRequests(requests);
    hide SortBySeq;
    if InSequence(ordered) {
      SequenceIsNumbered(ordered);
      PartsAgree(requests, ordered, catalog);
      NamesAgree(rows, requests, ordered);
      KeptAgrees(rows, requests, ordered, measured);
    }
  }

  lemma SequenceIsNumbered(ordered: seq<LegRequest>)
    requires InSequence(ordered)
    ensures Numbered(ordered)
  {
  }

  // ---- the rows afterwards -----------------------------------------------------------------------

  ghost predicate HasRow(rows: map<int, Leg>, r: LegRequest) {
    exists id :: id in rows && rows[id] == Leg(r.seqOrder, r.legType, r.walk, r.ride)
  }

  /** Each request has its row, with just the parts that were sent, and there are no other rows. */
  ghost predicate AsSent(rows: map<int, Leg>, requests: seq<LegRequest>) {
    && (forall r :: r in requests ==> HasRow(rows, r))
    && forall id :: id in rows ==> exists r :: r in requests && rows[id] == Leg(r.seqOrder, r.legType, r.walk, r.ride)
  }

  ghost predicate CatalogHolds(rows: map<int, Leg>, catalog: Catalog) {
    forall id :: id in rows ==> PartsFit(catalog, rows[id].legType, rows[id].walk, rows[id].ride)
  }

  lemma RowIsRequest(catalog: Catalog, r: LegRequest)
    requires FieldError(catalog, r).None?
    ensures LegOf(r) == Leg(r.seqOrder, r.legType, r.walk, r.ride)
    ensures PartsFit(catalog, r.legType, r.walk, r.ride)
  {
  }

  lemma PlacedAsSent(before: map<int, Leg>, nextId: int, ordered: seq<LegRequest>, catalog: Catalog,
                     rows: map<int, Leg>, ids: seq<int>, i: nat)
    requires Placed(before, nextId, ordered, rows, ids) && i < |ordered| && FieldError(catalog, ordered[i]).None?
    ensures HasRow(rows, ordered[i])
    ensures rows[ids[i]] == Leg(ordered[i].seqOrder, ordered[i].legType, ordered[i].walk, ordered[i].ride)
    ensures PartsFit(catalog, rows[ids[i]].legType, rows[ids[i]].walk, rows[ids[i]].ride)
  {
    RowIsRequest(catalog, ordered[i]);
    hide Target, FieldError, LegOf, PartsFit;
  }

  lemma ReplacedAsSent(before: map<int, Leg>, nextId: int, requests: seq<LegRequest>, measured: set<int>,
                       catalog: Catalog, rows: map<int, Leg>, ids: seq<int>)
    requires Accepts(before, requests, measured, catalog)
    requires Placed(before, nextId, SortBySeq(requests), rows, ids)
    ensures AsSent(rows, requests) && CatalogHolds(rows, catalog)
  {
    hide *;
    var ordered := SortBySeq(requests);
    SameRequests(requests);
    AcceptedFields(before, requests, measured, catalog);
    SentRows(before, nextId, requests, ordered, catalog, rows, ids);
  }

  lemma AcceptedFields(rows: map<int, Leg>, requests: seq<LegRequest>, measured: set<int>, catalog: Catalog)
    requires Accepts(rows, requests, measured, catalog)
    ensures forall i :: 0 <= i < |SortBySeq(requests)| ==> FieldError(catalog, SortBySeq(requests)[i]).None?
  {
    hide SortBySeq, FieldError;
  }

  lemma SentRows(before: map<int, Leg>, nextId: int, requests: seq<LegRequest>, ordered: seq<LegRequest>,
                 catalog: Catalog, rows: map<int, Leg>, ids: seq<int>)
    requires Placed(before, nextId, ordered, rows, ids)
    requires (forall i :: 0 <= i < |ordered| ==> ordered[i] in requests) && forall r :: r in requests ==> r in ordered
    requires forall i :: 0 <= i < |ordered| ==> FieldError(catalog, ordered[i]).None?
    ensures AsSent(rows, requests) && CatalogHolds(rows, catalog)
  {
    hide Target, FieldError, LegOf, PartsFit, HasRow;
    forall r | r in requests ensures HasRow(rows, r) {
      var i: nat :| i < |ordered| && ordered[i] == r;
      PlacedAsSent(before, nextId, ordered, catalog, rows, ids, i);
    }
    forall id | id in rows
      ensures exists r :: r in requests && rows[id] == Leg(r.seqOrder, r.legType, r.walk, r.ride)
      ensures PartsFit(catalog, rows[id].legType, rows[id].walk, rows[id].ride)
    {
      var i: nat :| i < |ids| && ids[i] == id;
      PlacedAsSent(before, nextId, ordered, catalog, rows, ids, i);
      assert ordered[i] in requests;
    }
  }

  // ---- why a list is refused ---------------------------------------------------------------------

  /** What the error says is so. */
  ghost predicate Justified(error: LegError, rows: map<int, Leg>, requests: seq<LegRequest>, measured: set<int>,
                            catalog: Catalog) {
    match error
    case NoLegs => requests == []
    case OutOfBounds(place) => exists r :: r in requests && r.seqOrder == place && !(0 < place && PartsInRange(r))
    case NotContiguous => exists place :: 1 <= place <= |requests| && !AskedFor(requests, place)
    case EndsNotWalk =>
      exists r :: r in requests && r.legType == Transit && (r.seqOrder == 1 || r.seqOrder == |requests|)
    case NotAlternating(place) =>
      exists a, b :: && a in requests && b in requests && a.seqOrder + 1 == b.seqOrder == place
                     && a.legType == b.legType
    case UnknownLeg(id) => id !in rows && exists r :: r in requests && r.id == Some(id)
    case RepeatedLeg(id) =>
      exists a, b :: a in requests && b in requests && a != b && a.id == Some(id) && b.id == Some(id)
    case HasMeasurements(ids) =>
      ids != {} && forall id :: id in ids <==> id in measured && id in rows && !Returned(rows, requests, id)
    case _ => exists r :: r in requests && PartsJustified(error, r, catalog)
  }

  predicate PartsJustified(error: LegError, r: LegRequest, catalog: Catalog) {
    match error
    case WalkIncomplete(place) =>
      && r.legType == Walk && r.seqOrder == place
      && (r.walk.startLat.None? || r.walk.startLng.None? || r.walk.endLat.None? || r.walk.endLng.None?)
    case RideNotEmpty(place) =>
      && r.legType == Walk && r.seqOrder == place
      && (r.ride.line.Some? || r.ride.board.Some? || r.ride.alight.Some? || r.ride.travelSec.Some?)
    case RideIncomplete(place) =>
      && r.legType == Transit && r.seqOrder == place
      && (r.ride.line.None? || r.ride.board.None? || r.ride.alight.None? || r.ride.travelSec.None?)
    case WalkNotEmpty(place) =>
      && r.legType == Transit && r.seqOrder == place
      && (|| r.walk.startLat.Some? || r.walk.startLng.Some? || r.walk.endLat.Some? || r.walk.endLng.Some?
          || r.walk.distanceM.Some?)
    case SameStop(place) =>
      r.legType == Transit && r.seqOrder == place && r.ride.board.Some? && r.ride.board == r.ride.alight
    case UnknownLine(id) => r.legType == Transit && r.ride.line == Some(id) && id !in catalog.lines
    case UnknownStop(id) =>
      r.legType == Transit && (r.ride.board == Some(id) || r.ride.alight == Some(id)) && id !in catalog.stops
    case WrongMode(place) =>
      && r.legType == Transit && r.seqOrder == place
      && r.ride.line.Some? && r.ride.board.Some? && r.ride.alight.Some?
      && r.ride.line.value in catalog.lines && r.ride.board.value in catalog.stops && r.ride.alight.value in catalog.stops
      && var mode := catalog.lines[r.ride.line.value];
         catalog.stops[r.ride.board.value] != mode || catalog.stops[r.ride.alight.value] != mode
    case _ => false
  }

  /** What the checks of the order found. */
  predicate OrderFault(error: LegError, ordered: seq<LegRequest>) {
    match error
    case NotContiguous => !Numbered(ordered)
    case EndsNotWalk =>
      && Numbered(ordered) && ordered != []
      && (ordered[0].legType == Transit || ordered[|ordered| - 1].legType == Transit)
    case NotAlternating(place) =>
      Numbered(ordered) && 2 <= place <= |ordered| && ordered[place - 2].legType == ordered[place - 1].legType
    case _ => false
  }

  /** What the check of the ids found. */
  predicate NameFault(error: LegError, rows: map<int, Leg>, ordered: seq<LegRequest>) {
    match error
    case UnknownLeg(id) => id !in rows && Named(ordered, id)
    case RepeatedLeg(id) =>
      exists i, j :: 0 <= i < j < |ordered| && ordered[i].id == ordered[j].id == Some(id)
    case _ => false
  }

  /** What the check of the measured legs found. */
  ghost predicate MeasuredFault(error: LegError, rows: map<int, Leg>, ordered: seq<LegRequest>, matched: map<int, int>,
                                measured: set<int>) {
    && Targets(rows, ordered, matched)
    && (forall s :: s in matched ==> 1 <= s <= |ordered| && matched[s] in rows)
    && (forall s, t :: s in matched && t in matched && s != t ==> matched[s] != matched[t])
    && error == HasMeasurements(Disturbed(rows, ordered, matched) * measured)
    && Disturbed(rows, ordered, matched) * measured != {}
  }

  /** What the checks of the parts found. */
  predicate FieldFault(error: LegError, catalog: Catalog, ordered: seq<LegRequest>) {
    exists i :: 0 <= i < |ordered| && FieldError(catalog, ordered[i]) == Some(error)
  }

  lemma UnknownIsFault(rows: map<int, Leg>, ordered: seq<LegRequest>, i: nat)
    requires i < |ordered| && ordered[i].id.Some? && ordered[i].id.value !in rows
    ensures NameFault(UnknownLeg(ordered[i].id.value), rows, ordered)
  {
  }

  lemma RepeatedIsFault(rows: map<int, Leg>, ordered: seq<LegRequest>, matched: map<int, int>, taken: set<int>, i: nat)
    requires i < |ordered| && Matched(rows, ordered, matched, taken, i)
    requires ordered[i].id.Some? && ordered[i].id.value in taken
    ensures NameFault(RepeatedLeg(ordered[i].id.value), rows, ordered)
  {
    var id := ordered[i].id.value;
    assert Named(ordered[..i], id);
    var j :| 0 <= j < i && ordered[..i][j].id == Some(id);
    assert ordered[j].id == Some(id);
  }

  lemma FieldErrorIsJustified(catalog: Catalog, r: LegRequest)
    requires FieldError(catalog, r).Some?
    ensures PartsJustified(FieldError(catalog, r).value, r, catalog)
    ensures FieldError(catalog, r).value.WalkIncomplete? || FieldError(catalog, r).value.RideNotEmpty?
            || FieldError(catalog, r).value.RideIncomplete? || FieldError(catalog, r).value.WalkNotEmpty?
            || FieldError(catalog, r).value.SameStop? || FieldError(catalog, r).value.UnknownLine?
            || FieldError(catalog, r).value.UnknownStop? || FieldError(catalog, r).value.WrongMode?
  {
  }

  lemma FieldIsJustified(error: LegError, rows: map<int, Leg>, requests: seq<LegRequest>, measured: set<int>,
                         catalog: Catalog)
    requires FieldFault(error, catalog, SortBySeq(requests))
    ensures Justified(error, rows, requests, measured, catalog)
  {
    hide SortBySeq, FieldError, PartsJustified;
    SameRequests(requests);
    var ordered := SortBySeq(requests);
    var i :| 0 <= i < |ordered| && FieldError(catalog, ordered[i]) == Some(error);
    assert ordered[i] in requests;
    FieldErrorIsJustified(catalog, ordered[i]);
  }

  lemma BoundsIsJustified(error: LegError, rows: map<int, Leg>, requests: seq<LegRequest>, measured: set<int>,
                          catalog: Catalog)
    requires || (error == NoLegs && requests == [])
             || exists r :: r in requests && error == OutOfBounds(r.seqOrder) && !InBounds(r)
    ensures Justified(error, rows, requests, measured, catalog)
  {
    if error != NoLegs {
      var r :| r in requests && error == OutOfBounds(r.seqOrder) && !InBounds(r);
      FieldsFit(catalog, r);
    }
  }

  lemma OrderIsJustified(error: LegError, rows: map<int, Leg>, requests: seq<LegRequest>, measured: set<int>,
                         catalog: Catalog)
    requires OrderFault(error, SortBySeq(requests))
    ensures Justified(error, rows, requests, measured, catalog)
  {
    var ordered := SortBySeq(requests);
    SameRequests(requests);
    BySeqOrders();
    SortSorts(requests, BySeq);
    hide SortBySeq, Orders;
    if error.NotContiguous? {
      if forall place :: 1 <= place <= |ordered| ==> AskedFor(requests, place) {
        forall place | 1 <= place <= |ordered| ensures AskedFor(ordered, place) {
          assert AskedFor(requests, place);
        }
        SortedIsNumbered(ordered);
      }
    } else if error.EndsNotWalk? {
      var r := if ordered[0].legType == Transit then ordered[0] else ordered[|ordered| - 1];
      assert r in requests;
    } else {
      var a, b := ordered[error.seqOrder - 2], ordered[error.seqOrder - 1];
      assert a in requests && b in requests;
    }
  }

  lemma NameIsJustified(error: LegError, rows: map<int, Leg>, requests: seq<LegRequest>, measured: set<int>,
                        catalog: Catalog)
    requires NameFault(error, rows, SortBySeq(requests)) && Numbered(SortBySeq(requests))
    ensures Justified(error, rows, requests, measured, catalog)
  {
    hide SortBySeq;
    var ordered := SortBySeq(requests);
    SameRequests(requests);
    if error.UnknownLeg? {
      var j :| 0 <= j < |ordered| && ordered[j].id == Some(error.id);
      assert ordered[j] in requests;
    } else {
      var i, j :| 0 <= i < j < |ordered| && ordered[i].id == ordered[j].id == Some(error.id);
      assert ordered[i] in requests && ordered[j] in requests && ordered[i] != ordered[j];
    }
  }

  lemma MeasuredIsJustified(error: LegError, rows: map<int, Leg>, requests: seq<LegRequest>, matched: map<int, int>,
                            measured: set<int>, catalog: Catalog)
    requires Unique(rows) && MeasuredFault(error, rows, SortBySeq(requests), matched, measured)
    ensures Justified(error, rows, requests, measured, catalog)
  {
    hide SortBySeq, Targets, Disturbed, Returned, Unique;
    var ordered := SortBySeq(requests);
    SameRequests(requests);
    DisturbedAreRows(rows, ordered, matched);
    forall id | id in rows ensures id in Disturbed(rows, ordered, matched) <==> !Returned(rows, requests, id) {
      DisturbedExactlyWhen(rows, ordered, matched, id);
      RowAgrees(rows, requests, ordered, id);
    }
  }

  lemma MatchIsJustified(error: LegError, rows: map<int, Leg>, requests: seq<LegRequest>, matched: map<int, int>,
                         measured: set<int>, catalog: Catalog)
    requires Unique(rows)
    requires || OrderFault(error, SortBySeq(requests))
             || (Numbered(SortBySeq(requests)) && NameFault(error, rows, SortBySeq(requests)))
             || MeasuredFault(error, rows, SortBySeq(requests), matched, measured)
    ensures Justified(error, rows, requests, measured, catalog)
  {
    hide OrderFault, NameFault, MeasuredFault, Justified, SortBySeq, Numbered;
    if OrderFault(error, SortBySeq(requests)) {
      OrderIsJustified(error, rows, requests, measured, catalog);
    } else if NameFault(error, rows, SortBySeq(requests)) && Numbered(SortBySeq(requests)) {
      NameIsJustified(error, rows, requests, measured, catalog);
    } else {
      MeasuredIsJustified(error, rows, requests, matched, measured, catalog);
    }
  }
}
