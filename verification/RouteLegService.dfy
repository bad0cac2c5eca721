/** Replacing the legs of a route row by row (RouteLegService.kt), proved against RouteLegs. Every write to a row has the
    constraints of the database as its precondition. */
module RouteLegServices {
  import opened Basics
  import opened RouteLegs
  import opened LegsAccepted

  class RouteLegService {
    /** The rows of one route, by id, and the id that the next new row gets. */
    var rows: map<int, Leg>
    var nextId: int

    predicate Valid()
      reads this
    {
      Lawful(rows) && Positive(rows) && forall id :: id in rows ==> id < nextId
    }

    constructor ()
      ensures Valid() && rows == map[]
    {
      rows, nextId := map[], 1;
    }

    // ---- single writes -----------------------------------------------------------------------------

    method Update(id: int, leg: Leg)
      requires id in rows && Lawful(rows[id := leg])
      modifies this`rows
      ensures rows == old(rows)[id := leg]
    {
      rows := rows[id := leg];
    }

    method Insert(leg: Leg) returns (id: int)
      requires nextId !in rows && Lawful(rows[nextId := leg])
      modifies this`rows, this`nextId
      ensures id == old(nextId) && nextId == id + 1 && rows == old(rows)[id := leg]
    {
      id, nextId := nextId, nextId + 1;
      rows := rows[id := leg];
    }

    // ---- checks --------------------------------------------------------------------------------------

    method ValidateSequence(ordered: seq<LegRequest>) returns (error: Option<LegError>)
      requires ordered != []
      ensures error.None? <==> InSequence(ordered)
      ensures error.Some? ==> OrderFault(error.value, ordered)
    {
      for i := 0 to |ordered|
        invariant forall k :: 0 <= k < i ==> ordered[k].seqOrder == k + 1
      {
        if ordered[i].seqOrder != i + 1 {
          return Some(NotContiguous);
        }
      }
      if ordered[0].legType != Walk || ordered[|ordered| - 1].legType != Walk {
        return Some(EndsNotWalk);
      }
      for i := 1 to |ordered|
        invariant forall k :: 1 <= k < i ==> ordered[k - 1].legType != ordered[k].legType
      {
        if ordered[i - 1].legType == ordered[i].legType {
          return Some(NotAlternating(ordered[i].seqOrder));
        }
      }
      error := None;
    }

    /** The rows in any order; a request fits at most one of them. */
    method Load() returns (existing: seq<int>)
      ensures forall id :: id in existing <==> id in rows
    {
      existing := [];
      var rest := rows.Keys;
      while rest != {}
        invariant forall id :: id in rows <==> id in rest || id in existing
        decreases rest
      {
        NotEmpty(rest);
        var id :| id in rest;
        existing, rest := existing + [id], rest - {id};
      }
    }

    /** Requests with an id. */
    method MatchNamed(ordered: seq<LegRequest>) returns (error: Option<LegError>, matched: map<int, int>, taken: set<int>)
      requires Numbered(ordered)
      ensures error.None? <==> NamesRows(rows, ordered)
      ensures error.Some? ==> NameFault(error.value, rows, ordered)
      ensures error.None? ==> forall id :: id in taken <==> Named(ordered, id)
      ensures error.None? ==> forall s :: s in matched <==> 1 <= s <= |ordered| && ordered[s - 1].id.Some?
      ensures error.None? ==> forall s :: s in matched ==> ordered[s - 1].id == Some(matched[s])
    {
      hide Named, NamesRows, Matched;
      error, matched, taken := None, map[], {};
      MatchesNone(rows, ordered);
      for i := 0 to |ordered|
        invariant Matched(rows, ordered, matched, taken, i)
      {
        var req := ordered[i];
        MatchesOne(rows, ordered, matched, taken, i);
        if req.id.Some? {
          if req.id.value !in rows {
            error := Some(UnknownLeg(req.id.value));
            UnknownIsFault(rows, ordered, i);
            return;
          }
          if req.id.value in taken {
            error := Some(RepeatedLeg(req.id.value));
            RepeatedIsFault(rows, ordered, matched, taken, i);
            return;
          }
          taken := taken + {req.id.value};
          matched := matched[req.seqOrder := req.id.value];
        }
      }
      MatchesAll(rows, ordered, matched, taken);
    }

    /** The other requests: each takes the row in its place, if that has its type and is not taken. */
    method MatchPlaces(ordered: seq<LegRequest>, named: map<int, int>, ids: set<int>) returns (matched: map<int, int>)
      requires Numbered(ordered) && Unique(rows) && NamesRows(rows, ordered)
      requires forall id :: id in ids <==> Named(ordered, id)
      requires forall s :: s in named <==> 1 <= s <= |ordered| && ordered[s - 1].id.Some?
      requires forall s :: s in named ==> ordered[s - 1].id == Some(named[s])
      ensures Targets(rows, ordered, matched)
    {
      hide Named, NamesRows;
      matched := named;
      var existing := Load();
      var taken := ids;
      for i := 0 to |ordered|
        invariant forall s :: s in matched <==>
                    1 <= s <= |ordered| && if s <= i then Target(rows, ordered, s - 1).Some? else ordered[s - 1].id.Some?
        invariant forall s :: s in matched ==> Target(rows, ordered, s - 1) == Some(matched[s])
        invariant ids <= taken
        invariant forall id :: id in taken && id !in ids ==> id in rows && rows[id].seqOrder <= i
      {
        var req := ordered[i];
        if req.id.None? {
          var found := FirstFit(ordered, i, existing, taken, ids);
          if found.Some? {
            TargetIs(rows, ordered, i, found.value);
            taken := taken + {found.value};
            matched := matched[req.seqOrder := found.value];
          }
        }
      }
    }

    method FirstFit(ordered: seq<LegRequest>, i: nat, existing: seq<int>, taken: set<int>, ghost ids: set<int>)
        returns (found: Option<int>)
      requires i < |ordered| && Numbered(ordered) && (forall id :: id in existing <==> id in rows)
      requires (forall id :: id in ids <==> Named(ordered, id)) && ids <= taken
      requires forall id :: id in taken && id !in ids ==> id in rows && rows[id].seqOrder <= i
      ensures found.Some? ==> Fits(rows, ordered, i, found.value)
      ensures found.None? ==> forall id :: !Fits(rows, ordered, i, id)
    {
      hide Named;
      var req := ordered[i];
      for j := 0 to |existing|
        invariant forall k :: 0 <= k < j ==> !Fits(rows, ordered, i, existing[k])
      {
        var id := existing[j];
        if id !in taken && rows[id].seqOrder == req.seqOrder && rows[id].legType == req.legType {
          return Some(id);
        }
      }
      found := None;
    }

    // ---- moving rows -----------------------------------------------------------------------------------

    /** Moves the matched rows out of the way. */
    method Park(n: nat, matched: map<int, int>)
      requires Valid()
      requires forall s :: s in matched ==> 1 <= s <= n && matched[s] in rows
      requires forall s, t :: s in matched && t in matched && s != t ==> matched[s] != matched[t]
      modifies this`rows
      ensures rows == Parked(old(rows), Kept(matched))
    {
      hide Lawful, Positive;
      ghost var aside: set<int> := {};
      for i := 0 to n
        invariant rows == Parked(old(rows), aside) && aside <= Kept(matched)
        invariant forall s :: s in matched ==> (matched[s] in aside <==> s <= i)
      {
        if i + 1 in matched {
          var id := matched[i + 1];
          ParkedIsLawful(old(rows), aside + {id});
          assert rows[id := Negated(rows[id])] == Parked(old(rows), aside + {id});
          Update(id, Negated(rows[id]));
          aside := aside + {id};
        }
      }
      assert aside == Kept(matched);
    }

    /** Inserts the rows of new legs, then moves the waiting rows to their places. */
    method Place(legs: seq<Leg>, matched: map<int, int>) returns (ids: seq<int>)
      requires Ready(rows, matched, legs, nextId)
      modifies this
      ensures |ids| == |legs| && Assigned(ids, matched, old(nextId), nextId) && old(nextId) <= nextId
      ensures forall i :: 0 <= i < |ids| ==> ids[i] in rows && rows[ids[i]] == legs[i]
      ensures forall id :: id in rows ==> id in ids
    {
      hide Ready, Assigned, Inserting, Moving, Lawful;
      ghost var waiting := rows;
      ids := [];
      InsertNone(waiting, legs, matched, nextId);
      for i := 0 to |legs|
        invariant |ids| == i && Inserting(rows, waiting, ids, legs, matched, old(nextId), nextId)
      {
        if i + 1 in matched {
          InsertSkips(rows, waiting, ids, legs, matched, old(nextId), nextId);
          ids := ids + [matched[i + 1]];
        } else {
          InsertsOne(rows, waiting, ids, legs, matched, old(nextId), nextId);
          InsertFits(rows, waiting, ids, legs, matched, old(nextId), nextId);
          var id := Insert(legs[i]);
          ids := ids + [id];
        }
      }
      AllInserted(rows, waiting, ids, legs, matched, old(nextId), nextId);
      for i := 0 to |legs|
        invariant nextId >= old(nextId) && |ids| == |legs| && Moving(rows, waiting, ids, legs, matched, i)
        invariant Assigned(ids, matched, old(nextId), nextId)
      {
        MovesOne(rows, waiting, ids, legs, matched, old(nextId), nextId, i);
        if i + 1 in matched {
          Update(ids[i], legs[i]);
        }
      }
      AllMoved(rows, waiting, ids, legs, matched, old(nextId), nextId);
    }

    // ---- the operation -----------------------------------------------------------------------------------

    method ValidateBounds(requests: seq<LegRequest>) returns (error: Option<LegError>)
      ensures error.None? <==> requests != [] && forall r :: r in requests ==> InBounds(r)
      ensures error.Some? ==>
                || (error.value == NoLegs && requests == [])
                || exists r :: r in requests && error.value == OutOfBounds(r.seqOrder) && !InBounds(r)
    {
      if requests == [] {
        return Some(NoLegs);
      }
      for i := 0 to |requests|
        invariant forall k :: 0 <= k < i ==> InBounds(requests[k])
      {
        if !InBounds(requests[i]) {
          return Some(OutOfBounds(requests[i].seqOrder));
        }
      }
      error := None;
    }

    /** What can be said before anything is written. */
    method Match(ordered: seq<LegRequest>, measured: set<int>) returns (error: Option<LegError>, matched: map<int, int>)
      requires Valid() && ordered != []
      ensures error.None? <==> InSequence(ordered) && NamesRows(rows, ordered) && KeepsMeasured(rows, ordered, measured)
      ensures error.None? ==> Targets(rows, ordered, matched)
      ensures error.Some? ==>
                || OrderFault(error.value, ordered) || (Numbered(ordered) && NameFault(error.value, rows, ordered))
                || MeasuredFault(error.value, rows, ordered, matched, measured)
    {
      hide NamesRows, KeepsMeasured, Targets, Named, Alternates, Lawful, Positive, Disturbed;
      matched := map[];
      error := ValidateSequence(ordered);
      if error.Some? {
        return;
      }
      var taken: set<int>;
      error, matched, taken := MatchNamed(ordered);
      if error.Some? {
        return;
      }
      LawfulIsUnique(rows);
      matched := MatchPlaces(ordered, matched, taken);
      TargetsAreRows(rows, ordered, matched);
      TargetsInRange(rows, ordered, matched);
      UndisturbedKeeps(rows, ordered, matched, measured);
      var found := Disturbed(rows, ordered, matched) * measured;
      if found != {} {
        error := Some(HasMeasurements(found));
      }
    }

    /** One transaction: what was written before an error is undone. */
    method Rewrite(ordered: seq<LegRequest>, matched: map<int, int>, catalog: Catalog) returns (outcome: Outcome)
      requires Valid() && Numbered(ordered) && NamesRows(rows, ordered) && Targets(rows, ordered, matched)
      modifies this
      ensures outcome.Replaced? <==> forall i :: 0 <= i < |ordered| ==> FieldError(catalog, ordered[i]).None?
      ensures outcome.Replaced? ==> Placed(old(rows), old(nextId), ordered, rows, outcome.ids)
      ensures outcome.Replaced? ==> old(nextId) <= nextId && forall id :: id in rows ==> id < nextId
      ensures outcome.Refused? ==> rows == old(rows) && nextId == old(nextId)
      ensures outcome.Refused? ==> FieldFault(outcome.error, catalog, ordered)
    {
      hide NamesRows, Targets, FieldError, Placed, Assigned, Ready;
      var before := rows;
      TargetsAreRows(rows, ordered, matched);
      TargetsInRange(rows, ordered, matched);
      Park(|ordered|, matched);
      rows := map id | id in rows && id in Kept(matched) :: rows[id];
      var legs: seq<Leg> := [];
      for i := 0 to |ordered|
        invariant |legs| == i && forall k :: 0 <= k < i ==> FieldError(catalog, ordered[k]).None? && legs[k] == LegOf(ordered[k])
      {
        var error := FieldError(catalog, ordered[i]);
        if error.Some? {
          rows := before;
          return Refused(error.value);
        }
        legs := legs + [LegOf(ordered[i])];
      }
      WaitingIsReady(before, rows, matched, ordered, legs, catalog, nextId);
      var ids := Place(legs, matched);
      PlacedAll(before, old(nextId), nextId, ordered, matched, rows, legs, ids);
      outcome := Replaced(ids);
    }

    /** `measured` are the ids of the legs that have recorded trips. */
    method ReplaceLegs(requests: seq<LegRequest>, measured: set<int>, catalog: Catalog) returns (outcome: Outcome)
      requires Valid()
      modifies this
      ensures Valid()
      ensures outcome.Replaced? <==> Accepts(old(rows), requests, measured, catalog)
      ensures outcome.Replaced? <==> Acceptable(old(rows), requests, measured, catalog)
      ensures outcome.Refused? ==> Justified(outcome.error, old(rows), requests, measured, catalog)
      ensures outcome.Replaced? ==> AsSent(rows, requests) && CatalogHolds(rows, catalog)
      ensures outcome.Replaced? ==> Placed(old(rows), old(nextId), SortBySeq(requests), rows, outcome.ids)
      ensures outcome.Replaced? ==> IsRoute(rows, outcome.ids)
      ensures outcome.Refused? ==> rows == old(rows)
      ensures forall id :: id in old(rows) && id in measured ==> id in rows && rows[id].legType == old(rows)[id].legType
    {
      hide NamesRows, KeepsMeasured, Targets, FieldError, Placed, IsRoute, InBounds, SortBySeq, Alternates, Lawful, Positive;
      hide Acceptable, Justified, AsSent, CatalogHolds, OrderFault, NameFault, MeasuredFault, FieldFault;
      ghost var before := rows;
      LawfulIsUnique(before);
      AcceptsExactlyWhen(before, requests, measured, catalog);
      var error := ValidateBounds(requests);
      if error.Some? {
        if requests == [] {
          EmptyNeverAccepted(before, requests, measured, catalog);
        }
        BoundsIsJustified(error.value, before, requests, measured, catalog);
        return Refused(error.value);
      }
      var ordered := SortBySeq(requests);
      var matched: map<int, int>;
      error, matched := Match(ordered, measured);
      if error.Some? {
        MatchIsJustified(error.value, before, requests, matched, measured, catalog);
        return Refused(error.value);
      }
      outcome := Rewrite(ordered, matched, catalog);
      if outcome.Replaced? {
        ReplacedIsRoute(before, old(nextId), requests, measured, catalog, rows, outcome.ids);
        ReplacedAsSent(before, old(nextId), requests, measured, catalog, rows, outcome.ids);
      } else {
        FieldIsJustified(outcome.error, before, requests, measured, catalog);
      }
    }
  }
}
