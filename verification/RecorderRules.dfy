/** Whatever events arrive, in whatever order and with whatever times, what the recorder sends for a trip obeys
    the server's rules: the create first, then only writes after which the record is legal, then nothing. */
module RecorderRules {
  import opened Basics
  import opened Commands
  import opened TripServer
  import opened TripViews
  import opened Routes
  import opened RecorderModel

  // ---- the rules as an automaton over effects ----------------------------------------------------

  /** Where one event stands: before a trip, in a trip with the record the server would hold if it had everything
      sent so far, or past the end of a trip. */
  datatype Cursor = Idle | Open(key: TripKey, rec: TripRec) | Over

  /** Only the first attempt of a leg says when the stop was reached. */
  predicate ArrivalsOnFirst(list: seq<Attempt>) {
    forall i :: 1 <= i < |list| ==> list[i].arrivedAtStopAt.None?
  }

  predicate Disciplined(t: TripRec) {
    TripLegal(t) && forall leg :: leg in t.attempts ==> ArrivalsOnFirst(t.attempts[leg])
  }

  /** One effect; `None` means a rule is broken. */
  function Advance(c: Cursor, e: Effect): Option<Cursor> {
    match e
    case Enqueue(CreateTrip(k, date)) =>
      if c.Idle? && date == KstDate(k.leftHomeAt) then Some(Open(k, FreshTrip(k, date))) else None
    case Enqueue(UploadGps(owner, points)) =>
      if c.Open? && owner == Some(c.key) && points != [] then Some(c) else None
    case Enqueue(DeleteTrip(_)) => None
    case Enqueue(write) =>
      if && c.Open? && write.key == c.key && c.rec.arrivedAt.None?
         && Fits(Some(c.rec), write, c.key)
         && Disciplined(WriteTrip(Some(c.rec), write, c.key).value)
      then Some(Open(c.key, WriteTrip(Some(c.rec), write, c.key).value))
      else None
    case DiscardOutbox(k) => if c.Open? && c.key == k && c.rec.arrivedAt.None? then Some(Over) else None
    case TripEnded(k) => if c.Over? || (c.Open? && c.key == k) then Some(Over) else None
    case _ => Some(c)
  }

  function AdvanceAll(c: Cursor, effects: seq<Effect>): Option<Cursor> {
    if effects == [] then Some(c)
    else
      var front := AdvanceAll(c, effects[..|effects| - 1]);
      if front.None? then None else Advance(front.value, effects[|effects| - 1])
  }

  lemma {:induction false} AdvanceConcat(c: Cursor, a: seq<Effect>, b: seq<Effect>)
    requires AdvanceAll(c, a).Some?
    ensures AdvanceAll(c, a + b) == AdvanceAll(AdvanceAll(c, a).value, b)
    decreases |b|
  {
    if b == [] {
      assert a + b == a;
    } else {
      AdvanceConcat(c, a, b[..|b| - 1]);
      assert (a + b)[..|a + b| - 1] == a + b[..|b| - 1];
    }
  }

  lemma AdvanceNone(c: Cursor)
    ensures AdvanceAll(c, []) == Some(c)
  {
  }

  lemma AdvanceOne(c: Cursor, a: seq<Effect>, e: Effect)
    requires AdvanceAll(c, a).Some?
    ensures AdvanceAll(c, a + [e]) == Advance(AdvanceAll(c, a).value, e)
  {
    AdvanceConcat(c, a, [e]);
    assert [e][..0] == [];
  }

  /** Effects that carry no command and end no trip. */
  predicate Quiet(e: Effect) {
    !e.Enqueue? && !e.DiscardOutbox? && !e.TripEnded?
  }

  lemma {:induction false} AdvanceQuiet(c: Cursor, a: seq<Effect>, b: seq<Effect>)
    requires AdvanceAll(c, a).Some? && forall e :: e in b ==> Quiet(e)
    ensures AdvanceAll(c, a + b) == AdvanceAll(c, a)
    decreases |b|
  {
    if b == [] {
      assert a + b == a;
    } else {
      AdvanceQuiet(c, a, b[..|b| - 1]);
      assert (a + b)[..|a + b| - 1] == a + b[..|b| - 1];
      assert b[|b| - 1] in b;
    }
  }

  /** One command among quiet effects. */
  lemma AdvanceAmid(c: Cursor, a: seq<Effect>, pre: seq<Effect>, e: Effect, post: seq<Effect>)
    requires AdvanceAll(c, a).Some? && Advance(AdvanceAll(c, a).value, e).Some?
    requires (forall x :: x in pre ==> Quiet(x)) && (forall x :: x in post ==> Quiet(x))
    ensures AdvanceAll(c, a + pre + [e] + post) == Advance(AdvanceAll(c, a).value, e)
  {
    AdvanceQuiet(c, a, pre);
    AdvanceOne(c, a + pre, e);
    AdvanceQuiet(c, a + pre + [e], post);
  }

  // ---- how the recorder's state mirrors the record -----------------------------------------------

  /** The list of a leg against its progress; every time lies between departure and the latest one sent. */
  predicate LegMatches(p: LegProgress, list: seq<Attempt>, left: Time, latest: Time) {
    && 1 <= p.attemptSeq <= MAX_ATTEMPT_SEQ
    && LegLegal(left, Some(latest), list)
    && ArrivalsOnFirst(list)
    && match p.phase
       case NotStarted =>
         list == [] && p.attemptSeq == 1 && p.departureAt.None? && p.lastMissedDepartureAt.None?
       case Waiting =>
         && (|list| == p.attemptSeq - 1 || (p.attemptSeq == 1 && |list| == 1))
         && (p.attemptSeq == 1 ==> p.lastMissedDepartureAt.None?)
         && (forall j :: 0 <= j < |list| && list[j].departureAt.Some? ==>
               p.lastMissedDepartureAt.Some? && list[j].departureAt.value <= p.lastMissedDepartureAt.value)
         && (p.attemptSeq == 1 && |list| == 1 ==> list[0].alightedAt.None?)
       case Riding =>
         && |list| == p.attemptSeq && list[|list| - 1].departureAt == p.departureAt
       case Done => true
  }

  predicate Matches(trip: ActiveTrip, r: TripRec) {
    && trip.Shaped() && trip.route.Distinct()
    && r.born == trip.key && r.leftHomeAt == trip.leftHomeAt && r.arrivedAt.None?
    && trip.leftHomeAt <= trip.latestRecordedAt
    && (forall i :: 0 <= i < |trip.legs| ==>
          LegMatches(trip.legs[i], r.On(trip.legs[i].legId), trip.leftHomeAt, trip.latestRecordedAt))
    && (forall leg :: leg in r.attempts ==> exists i :: 0 <= i < |trip.legs| && trip.legs[i].legId == leg)
  }

  predicate Tracks(s: RecorderState, c: Cursor) {
    && (s.trip.Some? <==> c.Open?)
    && (s.trip.Some? ==> c.key == s.trip.value.key && Matches(s.trip.value, c.rec))
  }

  /** What the recorder needs of its settings. */
  predicate Sound(cfg: Config) {
    && cfg.policy.maxAttemptSeq <= MAX_ATTEMPT_SEQ
    && forall route :: route in cfg.routes ==> route.Distinct()
  }

  lemma MatchesIsDisciplined(trip: ActiveTrip, r: TripRec)
    requires Matches(trip, r)
    ensures Disciplined(r)
  {
    forall leg | leg in r.attempts ensures LegLegal(r.leftHomeAt, None, r.attempts[leg]) && ArrivalsOnFirst(r.attempts[leg]) {
      var i :| 0 <= i < |trip.legs| && trip.legs[i].legId == leg;
      assert LegMatches(trip.legs[i], r.On(leg), trip.leftHomeAt, trip.latestRecordedAt);
    }
  }

  lemma LaterIsLegal(p: LegProgress, list: seq<Attempt>, left: Time, latest: Time, later: Time)
    requires LegMatches(p, list, left, latest) && latest <= later
    ensures LegMatches(p, list, left, later) && LegMatches(p.(phase := Done), list, left, later)
  {
  }

  /** Appending an attempt, or writing over the last one. */
  lemma ListExtended(list: seq<Attempt>, a: Attempt, left: Time, latest: Time)
    requires LegLegal(left, Some(latest), list) && |list| < MAX_ATTEMPT_SEQ
    requires WithinTrip(left, Some(latest), a) && AlightsAfterDeparture(a)
    requires forall j :: 0 <= j < |list| ==> Ordered(list[j].departureAt, a.departureAt)
    ensures LegLegal(left, Some(latest), list + [a])
  {
  }

  lemma ListRewritten(list: seq<Attempt>, a: Attempt, left: Time, latest: Time)
    requires LegLegal(left, Some(latest), list) && list != []
    requires WithinTrip(left, Some(latest), a) && AlightsAfterDeparture(a)
    requires forall j :: 0 <= j < |list| - 1 ==> Ordered(list[j].departureAt, a.departureAt)
    ensures LegLegal(left, Some(latest), list[|list| - 1 := a])
  {
  }

  /** One upsert on leg `i`, and the progress that goes with it. */
  ghost predicate LegStep(trip: ActiveTrip, trip': ActiveTrip, r: TripRec, i: nat, u: Upsert) {
    && Matches(trip, r) && i < |trip.legs| == |trip'.legs|
    && trip' == trip.(legs := trip.legs[i := trip'.legs[i]], returnedToOriginAt := trip'.returnedToOriginAt,
                      latestRecordedAt := trip'.latestRecordedAt)
    && trip.latestRecordedAt <= trip'.latestRecordedAt
    && u.legId == trip.legs[i].legId == trip'.legs[i].legId
    && Numbered(u, |r.On(u.legId)|) && u.Seq() <= MAX_ATTEMPT_SEQ
    && LegMatches(trip'.legs[i], WriteList(r.On(u.legId), u), trip.leftHomeAt, trip'.latestRecordedAt)
  }

  lemma LegStepMatches(trip: ActiveTrip, trip': ActiveTrip, r: TripRec, i: nat, u: Upsert)
    requires LegStep(trip, trip', r, i, u)
    ensures Matches(trip', WriteUpsert(r, u))
    ensures forall j :: 0 <= j < |trip.legs| && j != i ==>
              WriteUpsert(r, u).On(trip.legs[j].legId) == r.On(trip.legs[j].legId)
  {
    hide LegMatches, LegLegal, WriteList;
    var r' := WriteUpsert(r, u);
    assert trip'.Shaped();
    assert forall j :: 0 <= j < |trip.legs| && j != i ==> trip.legs[j].legId != u.legId by {
      forall j | 0 <= j < |trip.legs| && j != i ensures trip.legs[j].legId != u.legId {
        assert trip.route.transitLegs[j].legId != trip.route.transitLegs[i].legId;
      }
    }
    forall j | 0 <= j < |trip'.legs|
      ensures LegMatches(trip'.legs[j], r'.On(trip'.legs[j].legId), trip.leftHomeAt, trip'.latestRecordedAt)
    {
      if j != i {
        assert r'.On(trip.legs[j].legId) == r.On(trip.legs[j].legId);
        LaterIsLegal(trip.legs[j], r.On(trip.legs[j].legId), trip.leftHomeAt, trip.latestRecordedAt, trip'.latestRecordedAt);
      }
    }
    forall leg | leg in r'.attempts ensures exists j :: 0 <= j < |trip'.legs| && trip'.legs[j].legId == leg {
      if leg == u.legId {
        assert trip'.legs[i].legId == leg;
      } else {
        var j :| 0 <= j < |trip.legs| && trip.legs[j].legId == leg;
        assert trip'.legs[j].legId == leg;
      }
    }
  }

  lemma WriteLeg(trip: ActiveTrip, trip': ActiveTrip, r: TripRec, i: nat, u: Upsert)
    requires LegStep(trip, trip', r, i, u)
    ensures Advance(Open(trip.key, r), Enqueue(UpsertAttempt(trip.key, u))) == Some(Open(trip.key, WriteUpsert(r, u)))
    ensures Matches(trip', WriteUpsert(r, u))
    ensures forall j :: 0 <= j < |trip.legs| && j != i ==>
              WriteUpsert(r, u).On(trip.legs[j].legId) == r.On(trip.legs[j].legId)
  {
    hide LegMatches, TripLegal, WriteUpsert, WriteList, ArrivalsOnFirst;
    LegStepMatches(trip, trip', r, i, u);
    MatchesIsDisciplined(trip', WriteUpsert(r, u));
  }

  /** Progress and bookkeeping may change while the record stays. */
  lemma KeepRecord(trip: ActiveTrip, trip': ActiveTrip, r: TripRec)
    requires Matches(trip, r)
    requires trip' == trip.(legs := trip'.legs, returnedToOriginAt := trip'.returnedToOriginAt,
                            latestRecordedAt := trip'.latestRecordedAt, gpsBuffer := trip'.gpsBuffer)
    requires |trip'.legs| == |trip.legs| && trip.latestRecordedAt <= trip'.latestRecordedAt
    requires forall i :: 0 <= i < |trip.legs| ==>
               trip'.legs[i] == trip.legs[i] || trip'.legs[i] == trip.legs[i].(phase := Done)
    ensures Matches(trip', r)
  {
    hide LegMatches, LegLegal;
    forall i | 0 <= i < |trip.legs|
      ensures LegMatches(trip'.legs[i], r.On(trip'.legs[i].legId), trip.leftHomeAt, trip'.latestRecordedAt)
    {
      LaterIsLegal(trip.legs[i], r.On(trip.legs[i].legId), trip.leftHomeAt, trip.latestRecordedAt, trip'.latestRecordedAt);
    }
    forall leg | leg in r.attempts ensures exists i :: 0 <= i < |trip'.legs| && trip'.legs[i].legId == leg {
      var i :| 0 <= i < |trip.legs| && trip.legs[i].legId == leg;
      assert trip'.legs[i].legId == leg;
    }
  }

  // ---- transitions -------------------------------------------------------------------------------

  /** The closing upsert of a waiting leg names an existing attempt or the next one. */
  lemma CaughtOnWaiting(p: LegProgress, list: seq<Attempt>, left: Time, latest: Time, alighted: Option<Time>)
    requires p.phase == Waiting && LegMatches(p, list, left, latest)
    requires alighted.Some? ==> left <= alighted.value <= latest
    ensures var u := BareUpsert(p.legId, p.attemptSeq).(alightedAt := alighted, result := Some(Caught));
            Numbered(u, |list|) && LegMatches(p.(phase := Done), WriteList(list, u), left, latest)
  {
    var u := BareUpsert(p.legId, p.attemptSeq).(alightedAt := alighted, result := Some(Caught));
    if |list| == p.attemptSeq - 1 {
      ListExtended(list, WriteAttempt(BlankAttempt, u), left, latest);
    } else {
      ListRewritten(list, WriteAttempt(list[0], u), left, latest);
    }
  }

  ghost predicate Closes(front: ActiveTrip, closed: ActiveTrip, i: nat, at: Time, effects: seq<Effect>, all: seq<Effect>) {
    && i < |front.legs| && all == effects + ClosingEffects(front.key, front.legs[i], at)
    && closed == front.(legs := front.legs[i := front.legs[i].(phase := Done)])
  }

  lemma CloseWaitingTracks(front: ActiveTrip, closed: ActiveTrip, i: nat, at: Time, r: TripRec, u: Upsert)
    requires Matches(front, r) && i < |front.legs| && front.legs[i].phase == Waiting
    requires closed == front.(legs := front.legs[i := front.legs[i].(phase := Done)])
    requires u == BareUpsert(front.legs[i].legId, front.legs[i].attemptSeq).(result := Some(Caught))
    ensures LegStep(front, closed, r, i, u)
  {
    var p := front.legs[i];
    assert LegMatches(p, r.On(p.legId), front.leftHomeAt, front.latestRecordedAt);
    CaughtOnWaiting(p, r.On(p.legId), front.leftHomeAt, front.latestRecordedAt, None);
  }

  lemma CloseOneTracks(front: ActiveTrip, closed: ActiveTrip, i: nat, at: Time, r: TripRec, c: Cursor,
                       effects: seq<Effect>, all: seq<Effect>) returns (r': TripRec)
    requires Matches(front, r) && Closes(front, closed, i, at, effects, all)
    requires AdvanceAll(c, effects) == Some(Open(front.key, r))
    ensures AdvanceAll(c, all) == Some(Open(front.key, r'))
    ensures Matches(closed, r')
    ensures forall j :: 0 <= j < |front.legs| && j != i ==> r'.On(front.legs[j].legId) == r.On(front.legs[j].legId)
  {
    hide AdvanceAll, Advance, Matches, LegStep, WriteUpsert;
    var p := front.legs[i];
    if p.phase == Waiting {
      var u := BareUpsert(p.legId, p.attemptSeq).(result := Some(Caught));
      CloseWaitingTracks(front, closed, i, at, r, u);
      WriteLeg(front, closed, r, i, u);
      r' := WriteUpsert(r, u);
      var pre, post := [DismissPrompt(p.legId)], [NeedsReview(Note(front.key, Some(p.legId), CaughtInferred, at))];
      AdvanceAmid(c, effects, pre, Enqueue(UpsertAttempt(front.key, u)), post);
      assert all == effects + pre + [Enqueue(UpsertAttempt(front.key, u))] + post;
    } else {
      AdvanceQuiet(c, effects, ClosingEffects(front.key, p, at));
      KeepRecord(front, closed, r);
      r' := r;
    }
  }

  lemma {:induction false} CloseLegsTracks(trip: ActiveTrip, n: nat, at: Time, r: TripRec) returns (r': TripRec)
    requires Matches(trip, r) && n <= |trip.legs|
    ensures AdvanceAll(Open(trip.key, r), CloseLegs(trip, n, at).1) == Some(Open(trip.key, r'))
    ensures Matches(CloseLegs(trip, n, at).0, r')
    ensures forall i :: n <= i < |trip.legs| ==> r'.On(trip.legs[i].legId) == r.On(trip.legs[i].legId)
  {
    hide AdvanceAll, Matches, ClosingEffects, TripRec.On;
    AdvanceNone(Open(trip.key, r));
    if n == 0 {
      r' := r;
    } else {
      var mid := CloseLegsTracks(trip, n - 1, at, r);
      CloseLegsStep(trip, n, at);
      var front := CloseLegs(trip, n - 1, at);
      r' := CloseOneTracks(front.0, CloseLegs(trip, n, at).0, n - 1, at, mid, Open(trip.key, r), front.1,
                           CloseLegs(trip, n, at).1);
      forall i | n <= i < |trip.legs| ensures r'.On(trip.legs[i].legId) == r.On(trip.legs[i].legId) {
        assert front.0.legs[i].legId == trip.legs[i].legId;
      }
    }
  }

  lemma EnterBoardStopTracks(s: RecorderState, i: nat, at: Time, c: Cursor) returns (c': Cursor)
    requires s.trip.Some? && s.Shaped() && i < |s.trip.value.legs| && Tracks(s, c)
    ensures var o := EnterBoardStop(s, i, at);
            AdvanceAll(c, o.effects) == Some(c') && Tracks(o.state, c')
  {
    var trip := s.trip.value;
    var o := EnterBoardStop(s, i, at);
    c' := c;
    if trip.legs[i].phase != NotStarted {
    } else if at < trip.leftHomeAt {
      AdvanceOne(c, [], o.effects[0]);
      assert o.effects == [] + [o.effects[0]];
    } else {
      var r := CloseLegsTracks(trip, i, at, c.rec);
      var (closed, effects) := CloseLegs(trip, i, at);
      hide AdvanceAll, Advance, CloseLegs, Matches, LegStep, WriteUpsert, PromptFor;
      var u := BareUpsert(trip.legs[i].legId, 1).(arrivedAtStopAt := Some(at));
      var t := o.state.trip.value;
      BoardStep(closed, t, r, i, at);
      OneWrite(c, effects, closed, t, r, i, u, [], [PromptBoarding(PromptFor(t, i))], o.effects);
      c' := Open(trip.key, WriteUpsert(r, u));
    }
  }

  lemma BoardStep(closed: ActiveTrip, t: ActiveTrip, r: TripRec, i: nat, at: Time)
    requires Matches(closed, r) && i < |closed.legs| && closed.leftHomeAt <= at && closed.legs[i].phase == NotStarted
    requires t == closed.(legs := closed.legs[i := closed.legs[i].(phase := Waiting)], returnedToOriginAt := None,
                          latestRecordedAt := MaxTime(closed.latestRecordedAt, at))
    ensures LegStep(closed, t, r, i, BareUpsert(closed.legs[i].legId, 1).(arrivedAtStopAt := Some(at)))
  {
    var u := BareUpsert(closed.legs[i].legId, 1).(arrivedAtStopAt := Some(at));
    var a := WriteAttempt(BlankAttempt, u);
    assert LegMatches(closed.legs[i], r.On(u.legId), closed.leftHomeAt, closed.latestRecordedAt);
    assert WriteList([], u) == [a];
    ListExtended([], a, t.leftHomeAt, t.latestRecordedAt);
  }

  /** The upsert of an alighting names an existing attempt or the next one. */
  lemma AlightOnList(p: LegProgress, list: seq<Attempt>, left: Time, latest: Time, at: Time)
    requires p.phase == NotStarted || p.phase == Riding || p.phase == Waiting
    requires LegMatches(p, list, left, latest) && left <= at <= latest
    requires p.phase == Riding && p.departureAt.Some? ==> p.departureAt.value <= at
    ensures var u := BareUpsert(p.legId, p.attemptSeq).(
              alightedAt := Some(at), result := if p.phase == Riding then None else Some(Caught));
            Numbered(u, |list|) && LegMatches(p.(phase := Done), WriteList(list, u), left, latest)
  {
    var u := BareUpsert(p.legId, p.attemptSeq).(
      alightedAt := Some(at), result := if p.phase == Riding then None else Some(Caught));
    match p.phase
    case NotStarted =>
      ListExtended(list, WriteAttempt(BlankAttempt, u), left, latest);
    case Waiting =>
      CaughtOnWaiting(p, list, left, latest, Some(at));
    case Riding =>
      ListRewritten(list, WriteAttempt(list[|list| - 1], u), left, latest);
  }

  /** A transition that sends one upsert after `effects`, among quiet effects. */
  lemma OneWrite(c: Cursor, effects: seq<Effect>, closed: ActiveTrip, t: ActiveTrip, r: TripRec, i: nat, u: Upsert,
                 pre: seq<Effect>, post: seq<Effect>, all: seq<Effect>)
    requires AdvanceAll(c, effects) == Some(Open(closed.key, r)) && LegStep(closed, t, r, i, u)
    requires all == effects + pre + [Enqueue(UpsertAttempt(closed.key, u))] + post
    requires (forall x :: x in pre ==> Quiet(x)) && (forall x :: x in post ==> Quiet(x))
    ensures AdvanceAll(c, all) == Some(Open(closed.key, WriteUpsert(r, u))) && Matches(t, WriteUpsert(r, u))
  {
    hide AdvanceAll, Advance, WriteUpsert;
    WriteLeg(closed, t, r, i, u);
    AdvanceAmid(c, effects, pre, Enqueue(UpsertAttempt(closed.key, u)), post);
  }

  function AlightUpsert(p: LegProgress, at: Time): Upsert {
    BareUpsert(p.legId, p.attemptSeq).(alightedAt := Some(at), result := if p.phase == Riding then None else Some(Caught))
  }

  predicate EarlyAlight(p: LegProgress, at: Time) {
    p.phase == Riding && p.departureAt.Some? && at < p.departureAt.value
  }

  lemma AlightShape(s: RecorderState, i: nat, at: Time) returns (noted: seq<Effect>)
    requires s.trip.Some? && s.Shaped() && i < |s.trip.value.legs|
    requires s.trip.value.legs[i].phase != Done && s.trip.value.leftHomeAt <= at
    ensures forall e :: e in noted ==> Quiet(e)
    ensures var (trip, p) := (s.trip.value, s.trip.value.legs[i]);
            var (closed, effects) := CloseLegs(trip, i, at);
            var early := EarlyAlight(p, at);
            var o := EnterAlightStop(s, i, at);
            && o.effects == effects + noted + (if early then [] else [Enqueue(UpsertAttempt(trip.key, AlightUpsert(p, at)))])
            && o.state.trip == Some(closed.(
                 legs := closed.legs[i := p.(phase := Done)], returnedToOriginAt := None,
                 latestRecordedAt := if early then trip.latestRecordedAt else MaxTime(trip.latestRecordedAt, at)))
  {
    var (trip, p) := (s.trip.value, s.trip.value.legs[i]);
    noted := match p.phase
      case NotStarted => [NeedsReview(Note(trip.key, Some(p.legId), BoardStopMissed, at))]
      case Waiting => [DismissPrompt(p.legId), NeedsReview(Note(trip.key, Some(p.legId), CaughtInferred, at))]
      case _ => if EarlyAlight(p, at) then [NeedsReview(Note(trip.key, Some(p.legId), TimeOutOfOrder, at))] else [];
  }

  lemma EnterAlightStopTracks(s: RecorderState, i: nat, at: Time, c: Cursor) returns (c': Cursor)
    requires s.trip.Some? && s.Shaped() && i < |s.trip.value.legs| && Tracks(s, c)
    ensures var o := EnterAlightStop(s, i, at);
            AdvanceAll(c, o.effects) == Some(c') && Tracks(o.state, c')
  {
    var trip := s.trip.value;
    var p := trip.legs[i];
    var o := EnterAlightStop(s, i, at);
    c' := c;
    if p.phase == Done {
    } else if at < trip.leftHomeAt {
      AdvanceQuiet(c, [], o.effects);
      assert [] + o.effects == o.effects;
    } else {
      var noted := AlightShape(s, i, at);
      var r := CloseLegsTracks(trip, i, at, c.rec);
      var (closed, effects) := CloseLegs(trip, i, at);
      var t := o.state.trip.value;
      if EarlyAlight(p, at) {
        KeepRecord(closed, t, r);
        AdvanceQuiet(c, effects, noted);
        assert effects + noted + [] == effects + noted;
        c' := Open(trip.key, r);
      } else {
        AlightStep(closed, t, r, i, at);
        OneWrite(c, effects, closed, t, r, i, AlightUpsert(p, at), noted, [], o.effects);
        c' := Open(trip.key, WriteUpsert(r, AlightUpsert(p, at)));
      }
    }
  }

  lemma AlightStep(closed: ActiveTrip, t: ActiveTrip, r: TripRec, i: nat, at: Time)
    requires Matches(closed, r) && i < |closed.legs| && closed.leftHomeAt <= at
    requires closed.legs[i].phase != Done && !EarlyAlight(closed.legs[i], at)
    requires t == closed.(legs := closed.legs[i := closed.legs[i].(phase := Done)], returnedToOriginAt := None,
                          latestRecordedAt := MaxTime(closed.latestRecordedAt, at))
    ensures LegStep(closed, t, r, i, AlightUpsert(closed.legs[i], at))
  {
    var p := closed.legs[i];
    assert LegMatches(p, r.On(p.legId), closed.leftHomeAt, closed.latestRecordedAt);
    LaterIsLegal(p, r.On(p.legId), t.leftHomeAt, closed.latestRecordedAt, t.latestRecordedAt);
    AlightOnList(p, r.On(p.legId), t.leftHomeAt, t.latestRecordedAt, at);
  }

  /** The upsert of a button names an existing attempt or the next one, and the progress follows it. */
  lemma AnswerOnList(p: LegProgress, list: seq<Attempt>, left: Time, latest: Time, departure: Option<Time>,
                     missed: Option<string>, limit: int)
    requires p.phase == NotStarted || p.phase == Waiting
    requires LegMatches(p, list, left, latest) && limit <= MAX_ATTEMPT_SEQ
    requires departure.Some? ==> left <= departure.value <= latest
    requires departure.Some? && p.lastMissedDepartureAt.Some? ==> p.lastMissedDepartureAt.value <= departure.value
    ensures var u := AnswerUpsert(p, departure, missed);
            && Numbered(u, |list|) && u.Seq() <= MAX_ATTEMPT_SEQ
            && LegMatches(AnsweredProgress(p, departure, missed.Some?, limit), WriteList(list, u), left, latest)
  {
    var u := AnswerUpsert(p, departure, missed);
    if |list| == p.attemptSeq - 1 {
      var a := WriteAttempt(BlankAttempt, u);
      ListExtended(list, a, left, latest);
      assert WriteList(list, u) == list + [a];
    } else {
      var a := WriteAttempt(list[0], u);
      ListRewritten(list, a, left, latest);
      assert WriteList(list, u) == list[0 := a];
    }
  }

  lemma UserAnsweredTracks(cfg: Config, s: RecorderState, legId: Option<int>, attemptSeq: Option<int>, departedAt: Time,
                           missed: Option<string>, c: Cursor) returns (c': Cursor)
    requires Sound(cfg) && s.Shaped() && Tracks(s, c)
    ensures var o := UserAnswered(cfg, s, legId, attemptSeq, departedAt, missed);
            AdvanceAll(c, o.effects) == Some(c') && Tracks(o.state, c')
  {
    hide Answer, Matches;
    AdvanceNone(c);
    hide AdvanceAll;
    var o := UserAnswered(cfg, s, legId, attemptSeq, departedAt, missed);
    c' := c;
    if s.trip.Some? && AnsweredLeg(s.trip.value.legs).Some? {
      var trip := s.trip.value;
      var i := AnsweredLeg(trip.legs).value;
      var p := trip.legs[i];
      if !(legId.Some? && legId.value != p.legId) && !(attemptSeq.Some? && attemptSeq.value != p.attemptSeq) {
        c' := AnswerTracks(cfg, s, departedAt, missed, c, i, o);
      }
    }
  }

  lemma AnswerStep(closed: ActiveTrip, t: ActiveTrip, r: TripRec, i: nat, departedAt: Time, missed: Option<string>,
                   limit: int)
    requires Matches(closed, r) && i < |closed.legs| && limit <= MAX_ATTEMPT_SEQ
    requires closed.legs[i].phase == NotStarted || closed.legs[i].phase == Waiting
    requires var early := TooEarly(closed, closed.legs[i], departedAt);
             var departure := if early then None else Some(departedAt);
             t == closed.(legs := closed.legs[i := AnsweredProgress(closed.legs[i], departure, missed.Some?, limit)],
                          returnedToOriginAt := None,
                          latestRecordedAt :=
                            if early then closed.latestRecordedAt else MaxTime(closed.latestRecordedAt, departedAt))
    ensures var departure := if TooEarly(closed, closed.legs[i], departedAt) then None else Some(departedAt);
            LegStep(closed, t, r, i, AnswerUpsert(closed.legs[i], departure, missed))
  {
    var p := closed.legs[i];
    var departure := if TooEarly(closed, p, departedAt) then None else Some(departedAt);
    assert LegMatches(p, r.On(p.legId), closed.leftHomeAt, closed.latestRecordedAt);
    LaterIsLegal(p, r.On(p.legId), t.leftHomeAt, closed.latestRecordedAt, t.latestRecordedAt);
    AnswerOnList(p, r.On(p.legId), t.leftHomeAt, t.latestRecordedAt, departure, missed, limit);
  }

  lemma AnswerShape(cfg: Config, s: RecorderState, departedAt: Time, missed: Option<string>, i: nat)
      returns (pre: seq<Effect>, post: seq<Effect>)
    requires s.trip.Some? && s.Shaped() && AnsweredLeg(s.trip.value.legs) == Some(i)
    ensures (forall e :: e in pre ==> Quiet(e)) && (forall e :: e in post ==> Quiet(e))
    ensures var (trip, p) := (s.trip.value, s.trip.value.legs[i]);
            var (closed, effects) := if p.phase == NotStarted then CloseLegs(trip, i, departedAt) else (trip, []);
            var early := TooEarly(trip, p, departedAt);
            var departure := if early then None else Some(departedAt);
            var o := UserAnswered(cfg, s, None, None, departedAt, missed);
            && o.effects == effects + pre + [Enqueue(UpsertAttempt(trip.key, AnswerUpsert(p, departure, missed)))] + post
            && o.state.trip == Some(closed.(
                 legs := closed.legs[i := AnsweredProgress(p, departure, missed.Some?, cfg.policy.maxAttemptSeq)],
                 returnedToOriginAt := None,
                 latestRecordedAt := if early then trip.latestRecordedAt else MaxTime(trip.latestRecordedAt, departedAt)))
  {
    hide CloseLegs, AnswerUpsert, TooEarly, PromptFor;
    var (trip, p) := (s.trip.value, s.trip.value.legs[i]);
    var o := UserAnswered(cfg, s, None, None, departedAt, missed);
    var early := TooEarly(trip, p, departedAt);
    var departure := if early then None else Some(departedAt);
    pre := if early then [NeedsReview(Note(trip.key, Some(p.legId), TimeOutOfOrder, departedAt))] else [];
    post := match AnsweredProgress(p, departure, missed.Some?, cfg.policy.maxAttemptSeq).phase
      case Riding => [DismissPrompt(p.legId)]
      case Done => [DismissPrompt(p.legId), NeedsReview(Note(trip.key, Some(p.legId), AttemptLimitReached, departedAt))]
      case Waiting => [PromptBoarding(PromptFor(o.state.trip.value, i))]
      case NotStarted => [];
  }

  lemma AnswerTracks(cfg: Config, s: RecorderState, departedAt: Time, missed: Option<string>, c: Cursor, i: nat, o: Out)
      returns (c': Cursor)
    requires Sound(cfg) && s.trip.Some? && s.Shaped() && Tracks(s, c) && AnsweredLeg(s.trip.value.legs) == Some(i)
    requires o == UserAnswered(cfg, s, None, None, departedAt, missed)
    ensures AdvanceAll(c, o.effects) == Some(c') && Tracks(o.state, c')
  {
    AdvanceNone(c);
    hide AdvanceAll, Advance, WriteUpsert, LegMatches, UserAnswered, Answer, CloseLegs, AnsweredProgress, AnswerUpsert, LegStep;
    var trip := s.trip.value;
    var p := trip.legs[i];
    var pre, post := AnswerShape(cfg, s, departedAt, missed, i);
    var closed, effects, r := trip, [], c.rec;
    if p.phase == NotStarted {
      r := CloseLegsTracks(trip, i, departedAt, c.rec);
      closed, effects := CloseLegs(trip, i, departedAt).0, CloseLegs(trip, i, departedAt).1;
    }
    var t := o.state.trip.value;
    var departure := if TooEarly(trip, p, departedAt) then None else Some(departedAt);
    var u := AnswerUpsert(p, departure, missed);
    AnswerStep(closed, t, r, i, departedAt, missed, cfg.policy.maxAttemptSeq);
    OneWrite(c, effects, closed, t, r, i, u, pre, post, o.effects);
    c' := Open(trip.key, WriteUpsert(r, u));
  }

  lemma {:induction false} DismissalsAreQuiet(legs: seq<LegProgress>)
    ensures forall e :: e in DismissWaiting(legs) ==> Quiet(e)
  {
    if legs != [] {
      DismissalsAreQuiet(legs[..|legs| - 1]);
    }
  }

  /** Ending uploads what is buffered and sends nothing after that. */
  lemma EndTripAdvances(s: RecorderState, at: Time, c: Cursor, a: seq<Effect>, rec: TripRec)
    requires s.trip.Some? && AdvanceAll(c, a) == Some(Open(s.trip.value.key, rec))
    ensures AdvanceAll(c, a + EndTrip(s, at).effects) == Some(Over)
  {
    hide AdvanceAll, DismissWaiting;
    var trip := s.trip.value;
    var flush := FlushGps(s).effects;
    var dismiss := DismissWaiting(trip.legs) + [StopLocationUpdates];
    DismissalsAreQuiet(trip.legs);
    if flush == [] {
      AdvanceAmid(c, a, dismiss, TripEnded(trip.key), []);
      assert a + EndTrip(s, at).effects == a + dismiss + [TripEnded(trip.key)] + [];
    } else {
      AdvanceOne(c, a, flush[0]);
      AdvanceAmid(c, a + [flush[0]], dismiss, TripEnded(trip.key), []);
      assert a + EndTrip(s, at).effects == a + [flush[0]] + dismiss + [TripEnded(trip.key)] + [];
    }
  }

  lemma CancelAdvances(c: Cursor, dismiss: seq<Effect>)
    requires c.Open? && c.rec.arrivedAt.None? && forall e :: e in dismiss ==> Quiet(e)
    ensures AdvanceAll(c, dismiss + [DiscardOutbox(c.key), StopLocationUpdates, TripEnded(c.key)]) == Some(Over)
  {
    var a := [] + dismiss + [DiscardOutbox(c.key)] + [StopLocationUpdates];
    AdvanceAmid(c, [], dismiss, DiscardOutbox(c.key), [StopLocationUpdates]);
    AdvanceOne(c, a, TripEnded(c.key));
    assert a + [TripEnded(c.key)] == dismiss + [DiscardOutbox(c.key), StopLocationUpdates, TripEnded(c.key)];
  }

  lemma CancelTripTracks(s: RecorderState, c: Cursor)
    requires s.trip.Some? && Tracks(s, c)
    ensures AdvanceAll(c, CancelTrip(s).effects) == Some(Over) && Tracks(CancelTrip(s).state, Over)
  {
    DismissalsAreQuiet(s.trip.value.legs);
    CancelAdvances(c, DismissWaiting(s.trip.value.legs));
  }

  /** An arrival not before the latest time sent fits the record. */
  lemma ArrivalFits(trip: ActiveTrip, r: TripRec, at: Time)
    requires Matches(trip, r) && trip.latestRecordedAt <= at
    ensures var patch := TripPatch(None, Some(at));
            Advance(Open(trip.key, r), Enqueue(UpdateTrip(trip.key, patch))) == Some(Open(trip.key, WritePatch(r, patch)))
  {
    MatchesIsDisciplined(trip, r);
    var r' := WritePatch(r, TripPatch(None, Some(at)));
    forall leg | leg in r'.attempts ensures LegLegal(r'.leftHomeAt, r'.arrivedAt, r'.attempts[leg]) {
      var i :| 0 <= i < |trip.legs| && trip.legs[i].legId == leg;
      assert LegMatches(trip.legs[i], r.On(leg), trip.leftHomeAt, trip.latestRecordedAt);
      LaterIsLegal(trip.legs[i], r.On(leg), trip.leftHomeAt, trip.latestRecordedAt, at);
    }
  }

  lemma ArriveTracks(s: RecorderState, at: Time, c: Cursor)
    requires s.trip.Some? && Tracks(s, c)
    ensures AdvanceAll(c, Arrive(s, at).effects) == Some(Over) && Arrive(s, at).state.trip.None?
  {
    hide AdvanceAll, Advance, Matches, CloseLegs;
    AdvanceNone(c);
    var trip := s.trip.value;
    if at < trip.latestRecordedAt {
      var note := [NeedsReview(Note(trip.key, None, TimeOutOfOrder, at))];
      AdvanceQuiet(c, [], note);
      assert [] + note == note;
      EndTripAdvances(s, at, c, note, c.rec);
    } else {
      var r := CloseLegsTracks(trip, |trip.legs|, at, c.rec);
      var (closed, effects) := CloseLegs(trip, |trip.legs|, at);
      var patch := Enqueue(UpdateTrip(trip.key, TripPatch(None, Some(at))));
      ArrivalFits(closed, r, at);
      AdvanceOne(c, effects, patch);
      EndTripAdvances(s.(trip := Some(closed)), at, c, effects + [patch], WritePatch(r, TripPatch(None, Some(at))));
    }
  }

  lemma FlushTracks(s: RecorderState, c: Cursor)
    requires Tracks(s, c)
    ensures AdvanceAll(c, FlushGps(s).effects) == Some(c) && Tracks(FlushGps(s).state, c)
  {
    if FlushGps(s).effects != [] {
      AdvanceOne(c, [], FlushGps(s).effects[0]);
      assert FlushGps(s).effects == [] + [FlushGps(s).effects[0]];
      KeepRecord(s.trip.value, FlushGps(s).state.trip.value, c.rec);
    }
  }

  lemma OnTickTracks(cfg: Config, s: RecorderState, now: Time, c: Cursor) returns (c': Cursor)
    requires Tracks(s, c)
    ensures AdvanceAll(c, OnTick(cfg, s, now).effects) == Some(c') && Tracks(OnTick(cfg, s, now).state, c')
  {
    hide AdvanceAll, Matches, CloseLegs;
    AdvanceNone(c);
    c' := c;
    if s.trip.Some? {
      var trip := s.trip.value;
      if trip.returnedToOriginAt.Some? && now - trip.returnedToOriginAt.value >= cfg.policy.abandonAfterReturnHome {
        var note := [NeedsReview(Note(trip.key, None, TripAbandoned, now))];
        AdvanceQuiet(c, [], note);
        assert [] + note == note;
        EndTripAdvances(s, now, c, note, c.rec);
        c' := Over;
      } else if now - trip.leftHomeAt >= cfg.policy.maxTripDuration {
        var r := CloseLegsTracks(trip, |trip.legs|, now, c.rec);
        var (closed, effects) := CloseLegs(trip, |trip.legs|, now);
        var note := [NeedsReview(Note(trip.key, None, TripTimedOut, now))];
        AdvanceQuiet(c, effects, note);
        EndTripAdvances(s.(trip := Some(closed)), now, c, effects + note, r);
        c' := Over;
      } else {
        FlushTracks(s, c);
      }
    }
  }

  lemma OnLocationTracks(cfg: Config, s: RecorderState, sample: Sample, c: Cursor)
    requires Tracks(s, c)
    ensures AdvanceAll(c, OnLocation(cfg, s, sample).effects) == Some(c) && Tracks(OnLocation(cfg, s, sample).state, c)
  {
    if s.trip.Some? && Usable(cfg.policy, sample) {
      var trip := s.trip.value;
      var t := trip.(gpsBuffer := trip.gpsBuffer + [PointOf(sample)]);
      KeepRecord(trip, t, c.rec);
      FlushTracks(s.(trip := Some(t)), c);
    }
  }

  lemma {:induction false} EnterStopsTracks(s: RecorderState, stops: seq<Stop>, at: Time, c: Cursor) returns (c': Cursor)
    requires s.trip.Some? && s.Shaped() && Tracks(s, c)
    requires forall stop :: stop in stops ==> stop.index < |s.trip.value.legs|
    ensures var o := EnterStops(s, stops, at);
            AdvanceAll(c, o.effects) == Some(c') && Tracks(o.state, c')
    decreases |stops|
  {
    hide EnterAlightStop, EnterBoardStop, Matches;
    c' := c;
    if stops != [] {
      var stop := stops[|stops| - 1];
      var front := EnterStops(s, stops[..|stops| - 1], at);
      var mid := EnterStopsTracks(s, stops[..|stops| - 1], at, c);
      assert stop in stops;
      if stop.alight {
        c' := EnterAlightStopTracks(front.state, stop.index, at, mid);
      } else {
        c' := EnterBoardStopTracks(front.state, stop.index, at, mid);
      }
      AdvanceConcat(c, front.effects, EnterStop(front.state, stop, at).effects);
    }
  }

  lemma StartTripTracks(s: RecorderState, route: Route, at: Time)
    requires s.trip.None? && route.Distinct()
    ensures var key := TripKey(route.id, at);
            var c' := Open(key, FreshTrip(key, KstDate(at)));
            AdvanceAll(Idle, StartTrip(s, route, at).effects) == Some(c') && Tracks(StartTrip(s, route, at).state, c')
  {
    var effects := StartTrip(s, route, at).effects;
    AdvanceAmid(Idle, [], [], effects[0], [effects[1]]);
    assert effects == [] + [] + [effects[0]] + [effects[1]];
  }

  /** Leaving again before any stop moves the departure, and no attempt is in the way. */
  lemma LeaveAgainTracks(trip: ActiveTrip, r: TripRec, at: Time)
    requires Matches(trip, r) && !trip.AnyLegStarted() && at > trip.leftHomeAt
    ensures var patch := TripPatch(Some(at), None);
            && Advance(Open(trip.key, r), Enqueue(UpdateTrip(trip.key, patch))) == Some(Open(trip.key, WritePatch(r, patch)))
            && Matches(trip.(returnedToOriginAt := None, leftHomeAt := at, latestRecordedAt := at), WritePatch(r, patch))
  {
    MatchesIsDisciplined(trip, r);
    var r' := WritePatch(r, TripPatch(Some(at), None));
    forall leg | leg in r.attempts ensures r.attempts[leg] == [] {
      var i :| 0 <= i < |trip.legs| && trip.legs[i].legId == leg;
      assert LegMatches(trip.legs[i], r.On(leg), trip.leftHomeAt, trip.latestRecordedAt);
    }
    forall i | 0 <= i < |trip.legs| ensures LegMatches(trip.legs[i], r'.On(trip.legs[i].legId), at, at) {
      assert LegMatches(trip.legs[i], r.On(trip.legs[i].legId), trip.leftHomeAt, trip.latestRecordedAt);
    }
  }

  lemma ExitRegionsTracks(cfg: Config, s: RecorderState, roles: seq<Role>, at: Time, c: Cursor) returns (c': Cursor)
    requires Sound(cfg) && Tracks(s, c) && !c.Over?
    ensures var o := ExitRegions(cfg, s, roles, at);
            AdvanceAll(c, o.effects) == Some(c') && Tracks(o.state, c')
  {
    var o := ExitRegions(cfg, s, roles, at);
    c' := c;
    if s.trip.None? {
      var start := RouteToStart(cfg.hours, cfg.routes, roles, at);
      if start.Some? {
        var begun := StartTrip(s, start.value, at);
        StartTripTracks(s, start.value, at);
        var key := TripKey(start.value.id, at);
        c' := Open(key, FreshTrip(key, KstDate(at)));
        var rest := o.effects[|begun.effects|..];
        AdvanceQuiet(c, begun.effects, rest);
        assert o.effects == begun.effects + rest;
      }
    } else if o.effects != [] {
      LeaveAgainTracks(s.trip.value, c.rec, at);
      AdvanceOne(c, [], o.effects[0]);
      assert o.effects == [] + [o.effects[0]];
      c' := Open(c.key, WritePatch(c.rec, TripPatch(Some(at), None)));
    }
  }

  lemma StartFromFirstStopTracks(cfg: Config, s: RecorderState, roles: seq<Role>, at: Time) returns (c': Cursor)
    requires Sound(cfg) && s.trip.None?
    ensures var o := StartFromFirstStop(cfg, s, roles, at);
            AdvanceAll(Idle, o.effects) == Some(c') && Tracks(o.state, c')
  {
    var o := StartFromFirstStop(cfg, s, roles, at);
    var start := FirstRoute(StartableAtStop(cfg, s, cfg.routes, roles, at), UsualDirection(cfg.hours, at));
    c' := Idle;
    if start.Some? {
      var begun := StartTrip(s, start.value, at);
      StartTripTracks(s, start.value, at);
      var key := TripKey(start.value.id, at);
      c' := Open(key, FreshTrip(key, KstDate(at)));
      var rest := o.effects[|begun.effects|..];
      AdvanceQuiet(Idle, begun.effects, rest);
      assert o.effects == begun.effects + rest;
    }
  }

  lemma EnterRegionsTracks(cfg: Config, s: RecorderState, roles: seq<Role>, at: Time, c: Cursor) returns (c': Cursor)
    requires Sound(cfg) && s.Shaped() && Tracks(s, c) && !c.Over?
    ensures var o := EnterRegions(cfg, s, roles, at);
            AdvanceAll(c, o.effects) == Some(c') && Tracks(o.state, c')
  {
    hide EnterStops, SortStops, StopsOf, StartableAtStop, FirstRoute;
    AdvanceNone(c);
    hide AdvanceAll;
    var begun := if s.trip.None? then StartFromFirstStop(cfg, s, roles, at) else Out(s, []);
    c' := c;
    if s.trip.None? {
      c' := StartFromFirstStopTracks(cfg, s, roles, at);
    }
    if begun.state.trip.Some? {
      var s1 := EnterOrigin(begun.state, roles, at);
      KeepRecord(begun.state.trip.value, s1.trip.value, c'.rec);
      c' := StopsAndArrivalTrack(s1, roles, at, c, begun.effects, c');
    }
  }

  lemma StopsAndArrivalTrack(s1: RecorderState, roles: seq<Role>, at: Time, c: Cursor, before: seq<Effect>, c1: Cursor)
      returns (c': Cursor)
    requires s1.trip.Some? && s1.Shaped() && Tracks(s1, c1) && AdvanceAll(c, before) == Some(c1)
    ensures var route := s1.trip.value.route;
            var stops := SortStops(StopsOf(route, roles));
            && (forall stop :: stop in stops ==> stop.index < |route.transitLegs|)
            && var passed := EnterStops(s1, stops, at);
               var ended := if Destination(route.id) in roles then Arrive(passed.state, at) else Out(passed.state, []);
               AdvanceAll(c, before + passed.effects + ended.effects) == Some(c') && Tracks(ended.state, c')
  {
    hide EnterStops, SortStops, StopsOf, Arrive, Matches, AdvanceAll;
    var route := s1.trip.value.route;
    var stops := SortStops(StopsOf(route, roles));
    SortedStopsAreStops(StopsOf(route, roles), |route.transitLegs|);
    var passed := EnterStops(s1, stops, at);
    c' := EnterStopsTracks(s1, stops, at, c1);
    AdvanceConcat(c, before, passed.effects);
    if Destination(route.id) in roles {
      ArriveTracks(passed.state, at, c');
      AdvanceConcat(c, before + passed.effects, Arrive(passed.state, at).effects);
      c' := Over;
    } else {
      assert before + passed.effects + [] == before + passed.effects;
    }
  }

  /** Every event, at any time, keeps to the rules. */
  lemma HandleTracks(cfg: Config, s: RecorderState, e: Event, c: Cursor) returns (c': Cursor)
    requires Sound(cfg) && s.Shaped() && Tracks(s, c) && !c.Over?
    ensures AdvanceAll(c, Handle(cfg, s, e).effects) == Some(c') && Tracks(Handle(cfg, s, e).state, c')
  {
    hide ExitRegions, EnterRegions, UserAnswered, OnTick, OnLocation;
    AdvanceNone(c);
    hide AdvanceAll, Matches;
    match e
    case RegionExited(identifier, at) => c' := ExitRegionsTracks(cfg, s, cfg.plan.RolesFor(identifier), at, c);
    case RegionEntered(identifier, at) => c' := EnterRegionsTracks(cfg, s, cfg.plan.RolesFor(identifier), at, c);
    case UserCaught(legId, attemptSeq, at, departedAt) =>
      c' := UserAnsweredTracks(cfg, s, legId, attemptSeq, if departedAt.Some? then departedAt.value else at, None, c);
    case UserMissed(legId, attemptSeq, at, departedAt, notes) =>
      c' := UserAnsweredTracks(cfg, s, legId, attemptSeq, if departedAt.Some? then departedAt.value else at,
                               Some(if notes.Some? then notes.value else ""), c);
    case UserCancelledTrip(key, _) =>
      c' := c;
      if s.trip.Some? && (key.None? || key.value == s.trip.value.key) {
        CancelTripTracks(s, c);
        c' := Over;
      }
    case Location(sample) =>
      OnLocationTracks(cfg, s, sample, c);
      c' := c;
    case Tick(at) => c' := OnTickTracks(cfg, s, at, c);
  }
}
