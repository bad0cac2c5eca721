/** What reaching the stops of a region does to a trip, said leg by leg: which leg the rider stands at afterwards, which
    legs are closed, and every command and note that follows. */
module RecorderStops {
  import opened Basics
  import opened Commands
  import opened Routes
  import opened RecorderModel

  /** The legs whose boarding stop, and those whose alighting stop, the region stands for. */
  datatype Reach = Reach(boards: set<int>, alights: set<int>)

  // ---- leg by leg --------------------------------------------------------------------------------

  /** Reaching a boarding stop counts for a leg that has not begun. */
  predicate BoardCounts(trip: ActiveTrip, reach: Reach, i: nat) {
    i < |trip.legs| && i in reach.boards && trip.legs[i].phase == NotStarted
  }

  /** Reaching an alighting stop counts for a leg that is not over. */
  predicate AlightCounts(trip: ActiveTrip, reach: Reach, i: nat) {
    i < |trip.legs| && i in reach.alights && trip.legs[i].phase != Done
  }

  predicate Counts(trip: ActiveTrip, reach: Reach, i: nat) {
    BoardCounts(trip, reach, i) || AlightCounts(trip, reach, i)
  }

  /** A stop of a later leg was reached. */
  ghost predicate Passed(trip: ActiveTrip, reach: Reach, i: nat) {
    exists j: nat :: i < j && Counts(trip, reach, j)
  }

  /** The rider waits at the leg's boarding stop, before any alighting. */
  predicate Waits(trip: ActiveTrip, reach: Reach, i: nat)
    requires i < |trip.legs|
  {
    trip.legs[i].phase == Waiting || BoardCounts(trip, reach, i)
  }

  ghost predicate LegAfter(trip: ActiveTrip, reach: Reach, i: nat, p: LegProgress)
    requires i < |trip.legs|
  {
    p == trip.legs[i].(phase := if AlightCounts(trip, reach, i) || Passed(trip, reach, i) then Done
                                else if BoardCounts(trip, reach, i) then Waiting
                                else trip.legs[i].phase)
  }

  function NoteOn(trip: ActiveTrip, i: nat, kind: NoteKind, at: Time): Effect
    requires i < |trip.legs|
  {
    NeedsReview(Note(trip.key, Some(trip.legs[i].legId), kind, at))
  }

  /** Getting off before the vehicle left cannot be. */
  predicate OffTooEarly(trip: ActiveTrip, i: nat, at: Time)
    requires i < |trip.legs|
  {
    trip.legs[i].phase == Riding && trip.legs[i].departureAt.Some? && at < trip.legs[i].departureAt.value
  }

  predicate BoardSays(trip: ActiveTrip, i: nat, at: Time, e: Effect)
    requires i < |trip.legs|
  {
    e == Enqueue(UpsertAttempt(trip.key, Upsert(trip.legs[i].legId, Some(1), Some(at), None, None, None, None, None)))
  }

  /** Alighting: the time, unless it is too early; and that the rider was on board, unless that is known. */
  predicate AlightSays(trip: ActiveTrip, reach: Reach, i: nat, at: Time, e: Effect)
    requires i < |trip.legs|
  {
    var p := trip.legs[i];
    if OffTooEarly(trip, i, at) then e == NoteOn(trip, i, TimeOutOfOrder, at)
    else
      var known := p.phase == Riding;
      || e == Enqueue(UpsertAttempt(trip.key, Upsert(p.legId, Some(p.attemptSeq), None, None, None, Some(at),
                                                     if known then None else Some(Caught), None)))
      || (!known && e == NoteOn(trip, i, if Waits(trip, reach, i) then CaughtInferred else BoardStopMissed, at))
  }

  /** A leg that was passed without alighting: whoever waited is taken to have boarded. */
  predicate ClosingSays(trip: ActiveTrip, reach: Reach, i: nat, at: Time, e: Effect)
    requires i < |trip.legs|
  {
    var p := trip.legs[i];
    if Waits(trip, reach, i) then
      || e == Enqueue(UpsertAttempt(trip.key, Upsert(p.legId, Some(p.attemptSeq), None, None, None, None, Some(Caught), None)))
      || e == NoteOn(trip, i, CaughtInferred, at)
    else
      || (p.phase == NotStarted && e == NoteOn(trip, i, LegSkipped, at))
      || (p.phase == Riding && e == NoteOn(trip, i, AlightMissed, at))
  }

  /** What is recorded and noted about leg `i`; with `all`, every leg is passed. */
  ghost predicate Says(trip: ActiveTrip, reach: Reach, all: bool, i: nat, at: Time, e: Effect)
    requires i < |trip.legs|
  {
    || (BoardCounts(trip, reach, i) && BoardSays(trip, i, at, e))
    || (AlightCounts(trip, reach, i) && AlightSays(trip, reach, i, at, e))
    || ((all || Passed(trip, reach, i)) && !AlightCounts(trip, reach, i) && ClosingSays(trip, reach, i, at, e))
  }

  /** A stop reached before the departure is only noted. */
  predicate EarlySays(trip: ActiveTrip, reach: Reach, i: nat, at: Time, e: Effect)
    requires i < |trip.legs|
  {
    Counts(trip, reach, i) && e == NoteOn(trip, i, TimeOutOfOrder, at)
  }

  /** Commands and notes. */
  predicate Tells(e: Effect) {
    e.Enqueue? || e.NeedsReview?
  }

  /** A time was recorded. */
  ghost predicate TimeTaken(trip: ActiveTrip, reach: Reach, at: Time) {
    exists i: nat :: BoardCounts(trip, reach, i) || (AlightCounts(trip, reach, i) && !OffTooEarly(trip, i, at))
  }

  ghost predicate AnyCounts(trip: ActiveTrip, reach: Reach) {
    exists i: nat :: Counts(trip, reach, i)
  }

  /** The trip after the stops were reached. */
  ghost predicate TripAfter(trip: ActiveTrip, reach: Reach, at: Time, trip': ActiveTrip) {
    if at < trip.leftHomeAt then trip' == trip
    else
      && |trip'.legs| == |trip.legs|
      && (forall i: nat :: i < |trip.legs| ==> LegAfter(trip, reach, i, trip'.legs[i]))
      && trip' == trip.(legs := trip'.legs,
                        returnedToOriginAt := if AnyCounts(trip, reach) then None else trip.returnedToOriginAt,
                        latestRecordedAt := if TimeTaken(trip, reach, at) && trip.latestRecordedAt < at then at
                                            else trip.latestRecordedAt)
  }

  ghost predicate Told(trip: ActiveTrip, reach: Reach, all: bool, at: Time, e: Effect) {
    exists i: nat :: i < |trip.legs|
                     && if at < trip.leftHomeAt then EarlySays(trip, reach, i, at, e) else Says(trip, reach, all, i, at, e)
  }

  ghost predicate TellsExactly(trip: ActiveTrip, reach: Reach, all: bool, at: Time, effects: seq<Effect>) {
    forall e :: Tells(e) ==> (e in effects <==> Told(trip, reach, all, at, e))
  }

  // ---- closing -----------------------------------------------------------------------------------

  lemma {:induction false} ClosingIs(trip: ActiveTrip, n: nat, at: Time, e: Effect)
    requires n <= |trip.legs|
    ensures e in CloseLegs(trip, n, at).1 <==> exists i: nat :: i < n && e in ClosingEffects(trip.key, trip.legs[i], at)
  {
    hide ClosingEffects;
    if n > 0 {
      ClosingIs(trip, n - 1, at, e);
      var front := CloseLegs(trip, n - 1, at);
      assert CloseLegs(trip, n, at).1 == front.1 + ClosingEffects(trip.key, trip.legs[n - 1], at);
    }
  }

  /** Closing a leg that is still open tells what passing it means. */
  lemma ClosedLeg(trip: ActiveTrip, reach: Reach, cur: LegProgress, i: nat, at: Time, e: Effect)
    requires i < |trip.legs| && LegAfter(trip, reach, i, cur) && Tells(e)
    ensures e in ClosingEffects(trip.key, cur, at) <==>
            !AlightCounts(trip, reach, i) && !Passed(trip, reach, i) && ClosingSays(trip, reach, i, at, e)
  {
    hide Passed, Counts;
  }

  // ---- one more stop -----------------------------------------------------------------------------

  /** Only what counts matters. */
  ghost predicate SameCounts(trip: ActiveTrip, reach: Reach, reach': Reach) {
    forall i: nat :: (BoardCounts(trip, reach, i) <==> BoardCounts(trip, reach', i))
                     && (AlightCounts(trip, reach, i) <==> AlightCounts(trip, reach', i))
  }

  lemma SameLeg(trip: ActiveTrip, reach: Reach, reach': Reach, i: nat)
    requires SameCounts(trip, reach, reach')
    ensures Passed(trip, reach, i) <==> Passed(trip, reach', i)
  {
    if j: nat :| i < j && Counts(trip, reach, j) {
      assert Counts(trip, reach', j);
    }
    if j: nat :| i < j && Counts(trip, reach', j) {
      assert Counts(trip, reach, j);
    }
  }

  lemma SameTold(trip: ActiveTrip, reach: Reach, reach': Reach, all: bool, at: Time, e: Effect)
    requires SameCounts(trip, reach, reach') && Told(trip, reach, all, at, e)
    ensures Told(trip, reach', all, at, e)
  {
    hide BoardCounts, AlightCounts, Passed, BoardSays;
    var i: nat :| i < |trip.legs|
                  && if at < trip.leftHomeAt then EarlySays(trip, reach, i, at, e) else Says(trip, reach, all, i, at, e);
    SameLeg(trip, reach, reach', i);
    if at < trip.leftHomeAt {
      assert EarlySays(trip, reach', i, at, e);
    } else {
      assert Says(trip, reach', all, i, at, e);
    }
  }

  lemma SameAfter(trip: ActiveTrip, reach: Reach, reach': Reach, at: Time, trip': ActiveTrip)
    requires SameCounts(trip, reach, reach') && TripAfter(trip, reach, at, trip')
    ensures TripAfter(trip, reach', at, trip')
  {
    hide BoardCounts, AlightCounts, Passed, OffTooEarly;
    forall i: nat ensures Passed(trip, reach, i) <==> Passed(trip, reach', i) {
      SameLeg(trip, reach, reach', i);
    }
    if i: nat :| Counts(trip, reach, i) {
      assert Counts(trip, reach', i);
    }
    if i: nat :| Counts(trip, reach', i) {
      assert Counts(trip, reach, i);
    }
  }

  lemma NothingCounts(trip: ActiveTrip, reach: Reach, reach': Reach, at: Time, trip': ActiveTrip, effects: seq<Effect>)
    requires SameCounts(trip, reach, reach') && TripAfter(trip, reach, at, trip')
    requires TellsExactly(trip, reach, false, at, effects)
    ensures TripAfter(trip, reach', at, trip') && TellsExactly(trip, reach', false, at, effects)
  {
    SameAfter(trip, reach, reach', at, trip');
    hide BoardCounts, AlightCounts, Told, TripAfter;
    forall e | Tells(e) ensures e in effects <==> Told(trip, reach', false, at, e) {
      if Told(trip, reach, false, at, e) {
        SameTold(trip, reach, reach', false, at, e);
      }
      if Told(trip, reach', false, at, e) {
        SameTold(trip, reach', reach, false, at, e);
      }
    }
  }

  /** All stops so far are of earlier legs, or of this one. */
  predicate UpTo(reach: Reach, k: nat) {
    (forall i :: i in reach.boards ==> i <= k) && forall i :: i in reach.alights ==> i <= k
  }

  /** `reach'` is `reach` with one more stop, of leg `k`, that counts. */
  ghost predicate Added(trip: ActiveTrip, reach: Reach, reach': Reach, k: nat) {
    && k < |trip.legs| && UpTo(reach, k) && Counts(trip, reach', k) && !AlightCounts(trip, reach, k)
    && (BoardCounts(trip, reach, k) ==> BoardCounts(trip, reach', k))
    && forall i: nat :: i != k ==> (BoardCounts(trip, reach, i) <==> BoardCounts(trip, reach', i))
                                   && (AlightCounts(trip, reach, i) <==> AlightCounts(trip, reach', i))
  }

  lemma PassedByAdded(trip: ActiveTrip, reach: Reach, reach': Reach, k: nat, i: nat)
    requires Added(trip, reach, reach', k)
    ensures Passed(trip, reach', i) <==> i < k
    ensures i >= k ==> !Passed(trip, reach, i)
    ensures i > k ==> !Counts(trip, reach, i) && !Counts(trip, reach', i)
  {
    if i < k {
      assert Counts(trip, reach', k);
    }
  }

  /** The other legs: those before it are passed, those behind it are as they were. */
  lemma OthersTell(trip: ActiveTrip, reach: Reach, reach': Reach, k: nat, i: nat, at: Time, cur: LegProgress, e: Effect)
    requires Added(trip, reach, reach', k) && i < |trip.legs| && i != k && LegAfter(trip, reach, i, cur) && Tells(e)
    ensures Says(trip, reach', false, i, at, e) <==>
            Says(trip, reach, false, i, at, e) || (i < k && e in ClosingEffects(trip.key, cur, at))
  {
    PassedByAdded(trip, reach, reach', k, i);
    ClosedLeg(trip, reach, cur, i, at, e);
    hide Passed, ClosingEffects, LegAfter, OffTooEarly, BoardSays;
    assert ClosingSays(trip, reach, i, at, e) <==> ClosingSays(trip, reach', i, at, e);
    assert AlightSays(trip, reach, i, at, e) <==> AlightSays(trip, reach', i, at, e);
  }

  /** What the legs tell after one more stop: what they told, what closing the earlier ones tells, and what `own` says
      of the leg itself. */
  lemma StopTells(trip: ActiveTrip, reach: Reach, reach': Reach, k: nat, at: Time, cur: ActiveTrip,
                  before: seq<Effect>, own: seq<Effect>)
    requires Added(trip, reach, reach', k) && trip.leftHomeAt <= at && TripAfter(trip, reach, at, cur)
    requires TellsExactly(trip, reach, false, at, before)
    requires forall e :: Tells(e) ==> (Says(trip, reach, false, k, at, e) || e in own <==> Says(trip, reach', false, k, at, e))
    ensures TellsExactly(trip, reach', false, at, before + (CloseLegs(cur, k, at).1 + own))
  {
    var closing := CloseLegs(cur, k, at).1;
    forall e | Tells(e) ensures e in before + (closing + own) <==> Told(trip, reach', false, at, e) {
      ClosingIs(cur, k, at, e);
      hide Added, ClosingEffects, Says, CloseLegs;
      forall i: nat | i < |trip.legs| && i != k
        ensures Says(trip, reach', false, i, at, e) <==>
                Says(trip, reach, false, i, at, e) || (i < k && e in ClosingEffects(trip.key, cur.legs[i], at))
      {
        OthersTell(trip, reach, reach', k, i, at, cur.legs[i], e);
      }
      hide LegAfter, TripAfter, AnyCounts, TimeTaken;
      if e in closing {
        var i: nat :| i < k && e in ClosingEffects(cur.key, cur.legs[i], at);
        assert Says(trip, reach', false, i, at, e);
      }
      if e in before {
        var i: nat :| i < |trip.legs| && Says(trip, reach, false, i, at, e);
        assert Says(trip, reach', false, i, at, e);
      }
      if e in own {
        assert Says(trip, reach', false, k, at, e);
      }
      if Told(trip, reach', false, at, e) {
        var i: nat :| i < |trip.legs| && Says(trip, reach', false, i, at, e);
        assert i == k || Says(trip, reach, false, i, at, e) || (i < k && e in ClosingEffects(cur.key, cur.legs[i], at));
      }
    }
  }

  /** How the trip itself changes when a stop of leg `k` counts. */
  lemma LegsAfterAdded(trip: ActiveTrip, reach: Reach, reach': Reach, k: nat, at: Time, cur: ActiveTrip,
                       cur': ActiveTrip)
    requires Added(trip, reach, reach', k) && trip.leftHomeAt <= at && TripAfter(trip, reach, at, cur)
    requires |cur'.legs| == |cur.legs| && LegAfter(trip, reach', k, cur'.legs[k])
    requires forall i: nat :: i < |cur.legs| && i != k ==>
               cur'.legs[i] == if i < k then cur.legs[i].(phase := Done) else cur.legs[i]
    requires cur' == cur.(legs := cur'.legs, returnedToOriginAt := None, latestRecordedAt := cur'.latestRecordedAt)
    requires var taken := || (BoardCounts(trip, reach', k) && !BoardCounts(trip, reach, k))
                          || (AlightCounts(trip, reach', k) && !OffTooEarly(trip, k, at));
             cur'.latestRecordedAt == if taken then MaxTime(cur.latestRecordedAt, at) else cur.latestRecordedAt
    ensures TripAfter(trip, reach', at, cur')
  {
    forall i: nat | i < |trip.legs| ensures LegAfter(trip, reach', i, cur'.legs[i]) {
      PassedByAdded(trip, reach, reach', k, i);
    }
    assert AnyCounts(trip, reach') by {
      assert Counts(trip, reach', k);
    }
    TimeTakenAfter(trip, reach, reach', k, at);
  }

  lemma TimeTakenAfter(trip: ActiveTrip, reach: Reach, reach': Reach, k: nat, at: Time)
    requires Added(trip, reach, reach', k)
    ensures TimeTaken(trip, reach', at) <==>
            || TimeTaken(trip, reach, at) || BoardCounts(trip, reach', k)
            || (AlightCounts(trip, reach', k) && !OffTooEarly(trip, k, at))
  {
  }

  // ---- a boarding stop ---------------------------------------------------------------------------

  function WithBoard(reach: Reach, k: nat): Reach {
    reach.(boards := reach.boards + {k})
  }

  lemma BoardEntered(s: RecorderState, trip: ActiveTrip, reach: Reach, before: seq<Effect>, k: nat, at: Time)
    requires s.trip.Some? && s.Shaped() && trip.Shaped() && k < |trip.legs| && UpTo(reach, k) && k !in reach.alights
    requires TripAfter(trip, reach, at, s.trip.value) && TellsExactly(trip, reach, false, at, before)
    ensures var o := EnterBoardStop(s, k, at);
            && o.state == s.(trip := o.state.trip) && o.state.trip.Some?
            && TripAfter(trip, WithBoard(reach, k), at, o.state.trip.value)
            && TellsExactly(trip, WithBoard(reach, k), false, at, before + o.effects)
  {
    var reach' := WithBoard(reach, k);
    if at < trip.leftHomeAt {
      EarlyEntered(trip, reach, reach', before, k, at, trip.legs[k].phase == NotStarted);
    } else {
      NotPassed(trip, reach, k);
      if trip.legs[k].phase == NotStarted && k !in reach.boards {
        assert Added(trip, reach, reach', k);
        BoardTaken(s, trip, reach, reach', before, k, at);
      } else {
        assert SameCounts(trip, reach, reach');
        NothingCounts(trip, reach, reach', at, s.trip.value, before);
        assert before + [] == before;
      }
    }
  }

  lemma NotPassed(trip: ActiveTrip, reach: Reach, k: nat)
    requires UpTo(reach, k)
    ensures !Passed(trip, reach, k)
  {
  }

  lemma EarlyEntered(trip: ActiveTrip, reach: Reach, reach': Reach, before: seq<Effect>, k: nat, at: Time, noted: bool)
    requires k < |trip.legs| && at < trip.leftHomeAt && TellsExactly(trip, reach, false, at, before)
    requires forall i: nat :: Counts(trip, reach', i) <==> Counts(trip, reach, i) || (i == k && noted)
    ensures var own := if noted then [NeedsReview(Note(trip.key, Some(trip.legs[k].legId), TimeOutOfOrder, at))] else [];
            TellsExactly(trip, reach', false, at, before + own)
  {
    hide Counts;
    var own := if noted then [NoteOn(trip, k, TimeOutOfOrder, at)] else [];
    forall e | Tells(e) ensures e in before + own <==> Told(trip, reach', false, at, e) {
      if e in own {
        assert EarlySays(trip, reach', k, at, e);
      }
      if i: nat :| i < |trip.legs| && EarlySays(trip, reach, i, at, e) {
        assert EarlySays(trip, reach', i, at, e);
      }
      if i: nat :| i < |trip.legs| && EarlySays(trip, reach', i, at, e) {
        assert EarlySays(trip, reach, i, at, e) || (i == k && noted);
      }
    }
  }

  lemma BoardTaken(s: RecorderState, trip: ActiveTrip, reach: Reach, reach': Reach, before: seq<Effect>, k: nat,
                   at: Time)
    requires s.trip.Some? && s.Shaped() && trip.Shaped() && Added(trip, reach, reach', k) && trip.leftHomeAt <= at
    requires trip.legs[k].phase == NotStarted && k !in reach.boards && k !in reach.alights
    requires k in reach'.boards && k !in reach'.alights
    requires TripAfter(trip, reach, at, s.trip.value) && TellsExactly(trip, reach, false, at, before)
    ensures var o := EnterBoardStop(s, k, at);
            && o.state == s.(trip := o.state.trip) && o.state.trip.Some?
            && TripAfter(trip, reach', at, o.state.trip.value)
            && TellsExactly(trip, reach', false, at, before + o.effects)
  {
    var o, cur := EnterBoardStop(s, k, at), s.trip.value;
    PassedByAdded(trip, reach, reach', k, k);
    assert LegAfter(trip, reach, k, cur.legs[k]);
    var u := BareUpsert(trip.route.transitLegs[k].legId, 1).(arrivedAtStopAt := Some(at));
    var own := [Enqueue(UpsertAttempt(trip.key, u)), PromptBoarding(PromptFor(o.state.trip.value, k))];
    assert o.effects == CloseLegs(cur, k, at).1 + own;
    LegsAfterAdded(trip, reach, reach', k, at, cur, o.state.trip.value);
    StopTells(trip, reach, reach', k, at, cur, before, own);
  }

  // ---- an alighting stop -------------------------------------------------------------------------

  function WithAlight(reach: Reach, k: nat): Reach {
    reach.(alights := reach.alights + {k})
  }

  lemma AlightEntered(s: RecorderState, trip: ActiveTrip, reach: Reach, before: seq<Effect>, k: nat, at: Time)
    requires s.trip.Some? && s.Shaped() && trip.Shaped() && k < |trip.legs| && UpTo(reach, k)
    requires TripAfter(trip, reach, at, s.trip.value) && TellsExactly(trip, reach, false, at, before)
    ensures var o := EnterAlightStop(s, k, at);
            && o.state == s.(trip := o.state.trip) && o.state.trip.Some?
            && TripAfter(trip, WithAlight(reach, k), at, o.state.trip.value)
            && TellsExactly(trip, WithAlight(reach, k), false, at, before + o.effects)
  {
    var reach' := WithAlight(reach, k);
    if at < trip.leftHomeAt {
      EarlyEntered(trip, reach, reach', before, k, at, trip.legs[k].phase != Done);
    } else {
      NotPassed(trip, reach, k);
      if trip.legs[k].phase != Done && k !in reach.alights {
        assert Added(trip, reach, reach', k);
        AlightTaken(s, trip, reach, reach', before, k, at);
      } else {
        assert SameCounts(trip, reach, reach');
        NothingCounts(trip, reach, reach', at, s.trip.value, before);
        assert before + [] == before;
      }
    }
  }

  /** What alighting adds to the closing of the earlier legs. */
  function AlightOwn(trip: ActiveTrip, p: LegProgress, at: Time): seq<Effect> {
    var early := p.phase == Riding && p.departureAt.Some? && at < p.departureAt.value;
    var u := BareUpsert(p.legId, p.attemptSeq).(alightedAt := if early then None else Some(at),
                                                result := if p.phase == Riding then None else Some(Caught));
    (match p.phase
     case NotStarted => [NeedsReview(Note(trip.key, Some(p.legId), BoardStopMissed, at))]
     case Waiting => [DismissPrompt(p.legId), NeedsReview(Note(trip.key, Some(p.legId), CaughtInferred, at))]
     case _ => if early then [NeedsReview(Note(trip.key, Some(p.legId), TimeOutOfOrder, at))] else [])
    + if early then [] else [Enqueue(UpsertAttempt(trip.key, u))]
  }

  lemma AlightOwnSays(trip: ActiveTrip, reach: Reach, reach': Reach, k: nat, p: LegProgress, at: Time, e: Effect)
    requires Added(trip, reach, reach', k) && LegAfter(trip, reach, k, p) && AlightCounts(trip, reach', k) && Tells(e)
    requires BoardCounts(trip, reach', k) <==> BoardCounts(trip, reach, k)
    ensures Says(trip, reach, false, k, at, e) || e in AlightOwn(trip, p, at) <==> Says(trip, reach', false, k, at, e)
  {
    PassedByAdded(trip, reach, reach', k, k);
    hide Passed;
  }

  lemma AlightTaken(s: RecorderState, trip: ActiveTrip, reach: Reach, reach': Reach, before: seq<Effect>, k: nat,
                    at: Time)
    requires s.trip.Some? && s.Shaped() && trip.Shaped() && Added(trip, reach, reach', k) && trip.leftHomeAt <= at
    requires AlightCounts(trip, reach', k) && (BoardCounts(trip, reach', k) <==> BoardCounts(trip, reach, k))
    requires TripAfter(trip, reach, at, s.trip.value) && TellsExactly(trip, reach, false, at, before)
    ensures var o := EnterAlightStop(s, k, at);
            && o.state == s.(trip := o.state.trip) && o.state.trip.Some?
            && TripAfter(trip, reach', at, o.state.trip.value)
            && TellsExactly(trip, reach', false, at, before + o.effects)
  {
    var o, cur := EnterAlightStop(s, k, at), s.trip.value;
    PassedByAdded(trip, reach, reach', k, k);
    assert LegAfter(trip, reach, k, cur.legs[k]);
    var own := AlightOwn(trip, cur.legs[k], at);
    assert o.effects == CloseLegs(cur, k, at).1 + own;
    LegsAfterAdded(trip, reach, reach', k, at, cur, o.state.trip.value);
    forall e | Tells(e)
      ensures Says(trip, reach, false, k, at, e) || e in own <==> Says(trip, reach', false, k, at, e)
    {
      AlightOwnSays(trip, reach, reach', k, cur.legs[k], at, e);
    }
    hide AlightOwn, Added, TripAfter;
    StopTells(trip, reach, reach', k, at, cur, before, own);
  }

  // ---- all stops of a region ---------------------------------------------------------------------

  function ReachOf(stops: seq<Stop>): (reach: Reach)
    ensures forall i: nat :: (i in reach.boards <==> Stop(i, false) in stops)
                             && (i in reach.alights <==> Stop(i, true) in stops)
  {
    if stops == [] then Reach({}, {})
    else
      var last := stops[|stops| - 1];
      assert stops == stops[..|stops| - 1] + [last];
      if last.alight then WithAlight(ReachOf(stops[..|stops| - 1]), last.index)
      else WithBoard(ReachOf(stops[..|stops| - 1]), last.index)
  }

  predicate InStopOrder(stops: seq<Stop>) {
    forall i, j :: 0 <= i < j < |stops| ==> !StopBefore(stops[j], stops[i])
  }

  lemma {:induction false} ReachIsUpTo(stops: seq<Stop>, last: Stop)
    requires forall stop :: stop in stops ==> !StopBefore(last, stop)
    ensures UpTo(ReachOf(stops), last.index) && (!last.alight ==> last.index !in ReachOf(stops).alights)
  {
    if stops != [] {
      assert stops[|stops| - 1] in stops;
      ReachIsUpTo(stops[..|stops| - 1], last);
    }
  }

  lemma NoStops(trip: ActiveTrip, at: Time)
    ensures TripAfter(trip, Reach({}, {}), at, trip) && TellsExactly(trip, Reach({}, {}), false, at, [])
  {
  }

  lemma {:induction false} StopsEntered(s: RecorderState, stops: seq<Stop>, at: Time)
    requires s.trip.Some? && s.Shaped() && forall stop :: stop in stops ==> stop.index < |s.trip.value.legs|
    requires InStopOrder(stops)
    ensures var o := EnterStops(s, stops, at);
            && o.state == s.(trip := o.state.trip)
            && TripAfter(s.trip.value, ReachOf(stops), at, o.state.trip.value)
            && TellsExactly(s.trip.value, ReachOf(stops), false, at, o.effects)
  {
    hide TripAfter, TellsExactly, EnterBoardStop, EnterAlightStop;
    var trip := s.trip.value;
    if stops == [] {
      NoStops(trip, at);
    } else {
      var n := |stops| - 1;
      var front, last := stops[..n], stops[n];
      assert stops == front + [last];
      StopsEntered(s, front, at);
      forall stop | stop in front ensures !StopBefore(last, stop) {
        var i :| 0 <= i < n && stops[i] == stop;
      }
      ReachIsUpTo(front, last);
      hide UpTo, InStopOrder;
      NextStopEntered(EnterStops(s, front, at), trip, front, last, at);
    }
  }

  lemma NextStopEntered(o: Out, trip: ActiveTrip, front: seq<Stop>, last: Stop, at: Time)
    requires o.state.trip.Some? && o.state.Shaped() && trip.Shaped() && last.index < |trip.legs| == |o.state.trip.value.legs|
    requires UpTo(ReachOf(front), last.index) && (!last.alight ==> last.index !in ReachOf(front).alights)
    requires TripAfter(trip, ReachOf(front), at, o.state.trip.value)
    requires TellsExactly(trip, ReachOf(front), false, at, o.effects)
    ensures var next := EnterStop(o.state, last, at);
            && next.state == o.state.(trip := next.state.trip) && next.state.trip.Some?
            && TripAfter(trip, ReachOf(front + [last]), at, next.state.trip.value)
            && TellsExactly(trip, ReachOf(front + [last]), false, at, o.effects + next.effects)
  {
    hide TripAfter, TellsExactly, EnterBoardStop, EnterAlightStop, UpTo, WithBoard, WithAlight;
    assert (front + [last])[..|front|] == front;
    if last.alight {
      AlightEntered(o.state, trip, ReachOf(front), o.effects, last.index, at);
    } else {
      BoardEntered(o.state, trip, ReachOf(front), o.effects, last.index, at);
    }
  }

  // ---- the stops that a region stands for --------------------------------------------------------

  function RegionReach(route: Route, roles: seq<Role>): Reach {
    Reach(set i: nat | i < |route.transitLegs| && BoardStop(route.id, route.transitLegs[i].legId) in roles,
          set i: nat | i < |route.transitLegs| && AlightStop(route.id, route.transitLegs[i].legId) in roles)
  }

  lemma {:induction false} IndexOfLeg(legs: seq<TransitLeg>, i: nat)
    requires i < |legs| && forall j :: 0 <= j < i ==> legs[j].legId != legs[i].legId
    ensures LegIndex(legs, legs[i].legId) == Some(i)
  {
    if i > 0 {
      IndexOfLeg(legs[1..], i - 1);
    }
  }

  lemma {:induction false} StopsAreThoseOfRoles(route: Route, roles: seq<Role>, stop: Stop)
    requires route.Distinct() && stop.index < |route.transitLegs|
    ensures var legId := route.transitLegs[stop.index].legId;
            stop in StopsOf(route, roles) <==>
            (if stop.alight then AlightStop(route.id, legId) else BoardStop(route.id, legId)) in roles
  {
    if roles != [] {
      StopsAreThoseOfRoles(route, roles[1..], stop);
      IndexOfLeg(route.transitLegs, stop.index);
      assert roles == [roles[0]] + roles[1..];
    }
  }

  lemma SortedMember(route: Route, roles: seq<Role>, i: nat, alight: bool)
    requires route.Distinct() && i < |route.transitLegs|
    ensures Stop(i, alight) in SortStops(StopsOf(route, roles)) <==>
            (if alight then AlightStop(route.id, route.transitLegs[i].legId)
             else BoardStop(route.id, route.transitLegs[i].legId)) in roles
  {
    var stops := StopsOf(route, roles);
    StopsAreThoseOfRoles(route, roles, Stop(i, alight));
    assert Stop(i, alight) in multiset(SortStops(stops)) <==> Stop(i, alight) in multiset(stops);
  }

  lemma SortedReach(route: Route, roles: seq<Role>)
    requires route.Distinct()
    ensures ReachOf(SortStops(StopsOf(route, roles))) == RegionReach(route, roles)
    ensures InStopOrder(SortStops(StopsOf(route, roles)))
  {
    var sorted := SortStops(StopsOf(route, roles));
    StopsAreSorted(StopsOf(route, roles));
    SortedStopsAreStops(StopsOf(route, roles), |route.transitLegs|);
    ReachWithin(sorted, |route.transitLegs|);
    hide SortStops, StopsOf, Route.Distinct, StopBefore;
    var reach := RegionReach(route, roles);
    forall i: nat | i < |route.transitLegs|
      ensures (i in ReachOf(sorted).boards <==> i in reach.boards) && (i in ReachOf(sorted).alights <==> i in reach.alights)
    {
      SortedMember(route, roles, i, false);
      SortedMember(route, roles, i, true);
    }
    hide ReachOf;
    assert ReachOf(sorted).boards == reach.boards;
    assert ReachOf(sorted).alights == reach.alights;
  }

  lemma {:induction false} ReachWithin(stops: seq<Stop>, n: nat)
    requires forall stop :: stop in stops ==> stop.index < n
    ensures forall i :: i in ReachOf(stops).boards || i in ReachOf(stops).alights ==> 0 <= i < n
  {
    if stops != [] {
      assert stops[|stops| - 1] in stops;
      ReachWithin(stops[..|stops| - 1], n);
    }
  }
}
