/** Signal cycle rows: which requests are accepted (cycleRules.ts, TrafficSignalCycleService.kt) and which row counts at a
    time of day (cycleRules.ts, io/signals.py). */
module Cycles {
  import opened Basics
  import opened Sorting

  datatype DayType = Weekday | Saturday | SundayHoliday {
    function Ordinal(): int {
      match this
      case Weekday => 0
      case Saturday => 1
      case SundayHoliday => 2
    }
  }

  const DAY_TYPES: seq<DayType> := [Weekday, Saturday, SundayHoliday]

  datatype SignalSource = UserObserved | PublicApi | DefaultAssumption {
    /** Less is preferred. */
    function Priority(): int {
      match this
      case UserObserved => 0
      case PublicApi => 1
      case DefaultAssumption => 2
    }
  }

  const MIN_CYCLE_SEC := 30
  const MAX_CYCLE_SEC := 300
  const MAX_ROWS := 100
  const SECOND := 1_000_000_000

  // ---- what a list of requests may be ------------------------------------------------------------

  /** Times are nanoseconds since midnight; `None` is text that is no time or no whole number. */
  datatype CycleRequest = CycleRequest(dayType: DayType, start: Option<nat>, end: Option<nat>, cycleSec: Option<int>,
                                       redSec: Option<int>)

  datatype Problem = TooMany | BadCycle(i: nat) | BadRed(i: nat) | RedTooLong(i: nat) | NoTime(i: nat) | Backwards(i: nat)
                   | Overlap(i: nat, j: nat)

  /** Whole seconds since midnight. */
  function SecondsOfDay(t: nat): nat {
    t / SECOND
  }

  datatype Band = Band(i: nat, dayType: DayType, start: int, end: int)

  predicate CycleOk(r: CycleRequest) {
    r.cycleSec.Some? && MIN_CYCLE_SEC <= r.cycleSec.value <= MAX_CYCLE_SEC
  }

  predicate BandOk(r: CycleRequest) {
    r.start.Some? && r.end.Some? && SecondsOfDay(r.start.value) < SecondsOfDay(r.end.value)
  }

  predicate RowOk(r: CycleRequest) {
    CycleOk(r) && r.redSec.Some? && 0 < r.redSec.value < r.cycleSec.value && BandOk(r)
  }

  function BandOf(i: nat, r: CycleRequest): Band
    requires BandOk(r)
  {
    Band(i, r.dayType, SecondsOfDay(r.start.value), SecondsOfDay(r.end.value))
  }

  /** The bands share no moment; one may begin when the other ends. */
  predicate Apart(a: Band, b: Band) {
    a.dayType == b.dayType ==> a.end <= b.start || b.end <= a.start
  }

  predicate AllApart(bands: seq<Band>) {
    forall i, j :: 0 <= i < j < |bands| ==> Apart(bands[i], bands[j])
  }

  /** What both sides ask for: sound rows whose bands are apart. */
  predicate Good(requests: seq<CycleRequest>) {
    && |requests| <= MAX_ROWS
    && (forall i :: 0 <= i < |requests| ==> RowOk(requests[i]))
    && forall i, j :: 0 <= i < j < |requests| ==> Apart(BandOf(i, requests[i]), BandOf(j, requests[j]))
  }

  // ---- what is wrong with a list -----------------------------------------------------------------

  /** The whole second lies in the band of the row: it ends after the start, and by the end. */
  predicate InBand(r: CycleRequest, second: int) {
    r.start.Some? && r.end.Some? && r.start.value < (second + 1) * 1_000_000_000 <= r.end.value
  }

  predicate CycleOff(r: CycleRequest) {
    r.cycleSec.None? || r.cycleSec.value < 30 || r.cycleSec.value > 300
  }

  predicate RedOff(r: CycleRequest) {
    r.redSec.None? || r.redSec.value <= 0
  }

  /** What is wrong with a row by itself. */
  ghost predicate IsRowProblem(p: Problem, r: CycleRequest) {
    match p
    case BadCycle(_) => CycleOff(r)
    case BadRed(_) => RedOff(r)
    case RedTooLong(_) => !CycleOff(r) && !RedOff(r) && r.redSec.value >= r.cycleSec.value
    case NoTime(_) => r.start.None? || r.end.None?
    case Backwards(_) => r.start.Some? && r.end.Some? && forall x :: !InBand(r, x)
    case _ => false
  }

  /** What is wrong with a list: it is too long, a row is wrong, or two rows of a day share a second. */
  ghost predicate IsProblem(p: Problem, requests: seq<CycleRequest>) {
    match p
    case TooMany => |requests| > 100
    case Overlap(i, j) =>
      && i < |requests| && j < |requests| && i != j && requests[i].dayType == requests[j].dayType
      && exists x :: InBand(requests[i], x) && InBand(requests[j], x)
    case _ => p.i < |requests| && IsRowProblem(p, requests[p.i])
  }

  /** A list in which nothing is wrong. */
  ghost predicate NothingWrong(requests: seq<CycleRequest>) {
    forall p :: !IsProblem(p, requests)
  }

  lemma BandSeconds(i: nat, r: CycleRequest, x: int)
    requires r.start.Some? && r.end.Some?
    ensures InBand(r, x) <==> SecondsOfDay(r.start.value) <= x < SecondsOfDay(r.end.value)
  {
  }

  lemma BandIsEmpty(r: CycleRequest)
    requires r.start.Some? && r.end.Some?
    ensures (forall x :: !InBand(r, x)) <==> SecondsOfDay(r.start.value) >= SecondsOfDay(r.end.value)
  {
    BandSeconds(0, r, SecondsOfDay(r.start.value));
    forall x ensures InBand(r, x) <==> SecondsOfDay(r.start.value) <= x < SecondsOfDay(r.end.value) {
      BandSeconds(0, r, x);
    }
    hide InBand, SecondsOfDay;
  }

  lemma SharedSecond(requests: seq<CycleRequest>, i: nat, j: nat)
    requires i < |requests| && j < |requests| && i != j && BandOk(requests[i]) && BandOk(requests[j])
    ensures IsProblem(Overlap(i, j), requests) <==> !Apart(BandOf(i, requests[i]), BandOf(j, requests[j]))
  {
    var a, b := BandOf(i, requests[i]), BandOf(j, requests[j]);
    forall x ensures InBand(requests[i], x) <==> a.start <= x < a.end
             ensures InBand(requests[j], x) <==> b.start <= x < b.end {
      BandSeconds(i, requests[i], x);
      BandSeconds(j, requests[j], x);
    }
    hide InBand, SecondsOfDay;
    var later := if a.start < b.start then b.start else a.start;
    assert !Apart(a, b) ==> InBand(requests[i], later) && InBand(requests[j], later);
  }

  lemma RowOkExactlyWhen(i: nat, r: CycleRequest)
    ensures RowOk(r) <==>
            && !IsRowProblem(BadCycle(i), r) && !IsRowProblem(BadRed(i), r) && !IsRowProblem(RedTooLong(i), r)
            && !IsRowProblem(NoTime(i), r) && !IsRowProblem(Backwards(i), r)
  {
    if r.start.Some? && r.end.Some? {
      BandIsEmpty(r);
    }
    hide InBand, SecondsOfDay;
  }

  lemma GoodHasNoProblem(requests: seq<CycleRequest>, p: Problem)
    requires Good(requests)
    ensures !IsProblem(p, requests)
  {
    if p.Overlap? {
      if p.i < |requests| && p.j < |requests| && p.i != p.j {
        assert RowOk(requests[p.i]) && RowOk(requests[p.j]);
        SharedSecond(requests, p.i, p.j);
        hide IsProblem, SecondsOfDay;
        assert Apart(BandOf(p.i, requests[p.i]), BandOf(p.j, requests[p.j]));
      }
    } else if !p.TooMany? && p.i < |requests| {
      hide InBand, RowOk, Apart, SecondsOfDay;
      assert RowOk(requests[p.i]);
      RowOkExactlyWhen(p.i, requests[p.i]);
    }
  }

  lemma RowWithoutProblem(requests: seq<CycleRequest>, i: nat)
    requires NothingWrong(requests) && i < |requests|
    ensures RowOk(requests[i])
  {
    hide InBand, RowOk, IsRowProblem;
    RowOkExactlyWhen(i, requests[i]);
    assert !IsProblem(BadCycle(i), requests) && !IsProblem(BadRed(i), requests) && !IsProblem(RedTooLong(i), requests);
    assert !IsProblem(NoTime(i), requests) && !IsProblem(Backwards(i), requests);
  }

  lemma PairWithoutProblem(requests: seq<CycleRequest>, i: nat, j: nat)
    requires NothingWrong(requests) && i < j < |requests|
    ensures BandOk(requests[i]) && BandOk(requests[j]) && Apart(BandOf(i, requests[i]), BandOf(j, requests[j]))
  {
    RowWithoutProblem(requests, i);
    RowWithoutProblem(requests, j);
    SharedSecond(requests, i, j);
    assert !IsProblem(Overlap(i, j), requests);
  }

  /** Both sides refuse exactly the lists in which something is wrong. */
  lemma GoodExactlyWhen(requests: seq<CycleRequest>)
    ensures Good(requests) <==> NothingWrong(requests)
  {
    if Good(requests) {
      forall p ensures !IsProblem(p, requests) {
        GoodHasNoProblem(requests, p);
      }
    }
    if NothingWrong(requests) {
      assert !IsProblem(TooMany, requests);
      forall i: nat | i < |requests| ensures RowOk(requests[i]) {
        RowWithoutProblem(requests, i);
      }
      forall i: nat, j: nat | i < j < |requests| ensures Apart(BandOf(i, requests[i]), BandOf(j, requests[j])) {
        PairWithoutProblem(requests, i, j);
      }
    }
  }

  predicate ByStart(a: Band, b: Band) {
    a.start <= b.start
  }

  /** No band begins before the one ahead of it ends. */
  predicate NoneCutsIn(s: seq<Band>) {
    forall k :: 1 <= k < |s| ==> s[k - 1].end <= s[k].start
  }

  /** In order of start, comparing neighbours is enough. */
  lemma {:induction false} NeighboursSuffice(s: seq<Band>)
    requires Sorted(s, ByStart) && forall i :: 0 <= i < |s| ==> s[i].start < s[i].end && s[i].dayType == s[0].dayType
    ensures NoneCutsIn(s) <==> AllApart(s)
  {
    if NoneCutsIn(s) {
      forall i, j | 0 <= i < j < |s| ensures Apart(s[i], s[j]) {
        EndsBefore(s, i, j);
      }
    }
    if AllApart(s) {
      forall k | 1 <= k < |s| ensures s[k - 1].end <= s[k].start {
        assert Apart(s[k - 1], s[k]) && ByStart(s[k - 1], s[k]);
      }
    }
  }

  lemma {:induction false} EndsBefore(s: seq<Band>, i: nat, j: nat)
    requires i < j < |s| && NoneCutsIn(s) && forall k :: 0 <= k < |s| ==> s[k].start < s[k].end
    ensures s[i].end <= s[j].start
  {
    if i + 1 < j {
      EndsBefore(s, i, j - 1);
    }
  }

  function OnDay(day: DayType): Band -> bool {
    (b: Band) => b.dayType == day
  }

  /** The bands of a day in order of start. */
  function DaySorted(bands: seq<Band>, day: DayType): seq<Band> {
    StableSort(Filter(bands, OnDay(day)), ByStart)
  }

  lemma AllApartOfSet(xs: seq<Band>, ys: seq<Band>)
    requires NoRepeats(xs) && NoRepeats(ys) && forall b :: b in ys ==> b in xs
    requires AllApart(xs)
    ensures AllApart(ys)
  {
    forall i, j | 0 <= i < j < |ys| ensures Apart(ys[i], ys[j]) {
      assert ys[i] in xs && ys[j] in xs;
      var a :| 0 <= a < |xs| && xs[a] == ys[i];
      var b :| 0 <= b < |xs| && xs[b] == ys[j];
      if a < b {
        assert Apart(xs[a], xs[b]);
      } else {
        assert Apart(xs[b], xs[a]);
      }
    }
  }

  lemma DayOf(bands: seq<Band>, day: DayType)
    requires NoRepeats(bands) && forall i :: 0 <= i < |bands| ==> bands[i].start < bands[i].end
    ensures var s := DaySorted(bands, day);
            && Sorted(s, ByStart) && NoRepeats(s) && (forall b :: b in s <==> b in bands && b.dayType == day)
            && (NoneCutsIn(s) <==> AllApart(s))
  {
    var same := Filter(bands, OnDay(day));
    FilterNoRepeats(bands, OnDay(day));
    SortNoRepeats(same, ByStart);
    SortSorts(same, ByStart);
    var s := DaySorted(bands, day);
    forall i | 0 <= i < |s| ensures s[i].start < s[i].end && s[i].dayType == day {
      assert s[i] in s;
    }
    NeighboursSuffice(s);
  }

  /** Checking the neighbours day by day finds nothing exactly when all bands of a day are pairwise apart. */
  lemma DaysSuffice(bands: seq<Band>)
    requires NoRepeats(bands) && forall i :: 0 <= i < |bands| ==> bands[i].start < bands[i].end
    ensures (forall day: DayType :: NoneCutsIn(DaySorted(bands, day))) <==> AllApart(bands)
  {
    hide Filter, StableSort, NoneCutsIn, DaySorted;
    if AllApart(bands) {
      forall day: DayType ensures NoneCutsIn(DaySorted(bands, day)) {
        DayOf(bands, day);
        AllApartOfSet(bands, DaySorted(bands, day));
      }
    }
    if forall day: DayType :: NoneCutsIn(DaySorted(bands, day)) {
      forall i, j | 0 <= i < j < |bands| ensures Apart(bands[i], bands[j]) {
        if bands[i].dayType == bands[j].dayType {
          InOneDay(bands, i, j);
        }
      }
    }
  }

  lemma InOneDay(bands: seq<Band>, i: nat, j: nat)
    requires i < j < |bands| && bands[i].dayType == bands[j].dayType
    requires NoRepeats(bands) && forall k :: 0 <= k < |bands| ==> bands[k].start < bands[k].end
    requires NoneCutsIn(DaySorted(bands, bands[i].dayType))
    ensures Apart(bands[i], bands[j])
  {
    hide Filter, StableSort, NoneCutsIn, DaySorted;
    DayOf(bands, bands[i].dayType);
    var s := DaySorted(bands, bands[i].dayType);
    assert bands[i] in s && bands[j] in s;
    var a :| 0 <= a < |s| && s[a] == bands[i];
    var b :| 0 <= b < |s| && s[b] == bands[j];
    if a < b {
      assert Apart(s[a], s[b]);
    } else {
      assert Apart(s[b], s[a]);
    }
  }

  /** Two different bands that are not apart. */
  ghost predicate IsOverlap(p: Problem, bands: seq<Band>) {
    exists a, b :: a in bands && b in bands && a != b && !Apart(a, b) && p == Overlap(a.i, b.i)
  }

  lemma NeighboursOverlap(bands: seq<Band>, day: DayType, k: nat)
    requires NoRepeats(bands) && forall i :: 0 <= i < |bands| ==> bands[i].start < bands[i].end
    requires var same := DaySorted(bands, day); 1 <= k < |same| && same[k].start < same[k - 1].end
    ensures var same := DaySorted(bands, day); IsOverlap(Overlap(same[k - 1].i, same[k].i), bands)
  {
    DayOf(bands, day);
    hide DaySorted, NoneCutsIn, AllApart;
    TwoNeighbours(DaySorted(bands, day), bands, k);
  }

  lemma TwoNeighbours(same: seq<Band>, bands: seq<Band>, k: nat)
    requires Sorted(same, ByStart) && NoRepeats(same) && 1 <= k < |same| && same[k].start < same[k - 1].end
    requires forall b :: b in same ==> b in bands && b.dayType == same[0].dayType && b.start < b.end
    ensures IsOverlap(Overlap(same[k - 1].i, same[k].i), bands)
  {
    var a, b := same[k - 1], same[k];
    assert a in same && b in same;
    assert a != b && ByStart(a, b);
  }

  /** The overlaps among the bands, day by day. */
  method OverlapProblems(bands: seq<Band>) returns (errors: seq<Problem>)
    requires NoRepeats(bands) && forall i :: 0 <= i < |bands| ==> bands[i].start < bands[i].end
    ensures errors == [] <==> AllApart(bands)
    ensures forall p :: p in errors ==> IsOverlap(p, bands)
  {
    hide DaySorted, AllApart, NoRepeats, IsOverlap;
    errors := [];
    for d := 0 to |DAY_TYPES|
      invariant errors == [] <==> forall e :: 0 <= e < d ==> NoneCutsIn(DaySorted(bands, DAY_TYPES[e]))
      invariant forall p :: p in errors ==> IsOverlap(p, bands)
    {
      var same := DaySorted(bands, DAY_TYPES[d]);
      ghost var before := errors;
      var k := 1;
      while k < |same|
        invariant 1 <= k
        invariant errors == [] <==> before == [] && forall m :: 1 <= m < k && m < |same| ==> same[m - 1].end <= same[m].start
        invariant forall p :: p in errors ==> IsOverlap(p, bands)
      {
        if same[k].start < same[k - 1].end {
          NeighboursOverlap(bands, DAY_TYPES[d], k);
          errors := errors + [Overlap(same[k - 1].i, same[k].i)];
        }
        k := k + 1;
      }
    }
    if errors == [] {
      forall day: DayType ensures NoneCutsIn(DaySorted(bands, day)) {
        assert DAY_TYPES[day.Ordinal()] == day;
      }
    }
    DaysSuffice(bands);
  }

  /** The bands are those of rows of the list, of each row once. */
  predicate AreBands(bands: seq<Band>, requests: seq<CycleRequest>) {
    && (forall k :: 0 <= k < |bands| ==> bands[k].i < |requests| && BandOk(requests[bands[k].i])
                                         && bands[k] == BandOf(bands[k].i, requests[bands[k].i]))
    && forall j, k :: 0 <= j < k < |bands| ==> bands[j].i < bands[k].i
  }

  lemma OverlapIsProblem(p: Problem, bands: seq<Band>, requests: seq<CycleRequest>)
    requires AreBands(bands, requests) && IsOverlap(p, bands)
    ensures p.Overlap? && IsProblem(p, requests)
  {
    hide SecondsOfDay, InBand;
    var a, b :| a in bands && b in bands && a != b && !Apart(a, b) && p == Overlap(a.i, b.i);
    assert a.i != b.i;
    SharedSecond(requests, a.i, b.i);
  }

  /** The problems of a row by itself, in the order of the checks. */
  method RowProblems(i: nat, r: CycleRequest) returns (found: seq<Problem>)
    ensures forall p :: p in found <==> !p.TooMany? && !p.Overlap? && p.i == i && IsRowProblem(p, r)
    ensures found == [] <==> RowOk(r)
  {
    hide SecondsOfDay, InBand;
    found := [];
    if !CycleOk(r) {
      found := found + [BadCycle(i)];
    }
    if r.redSec.None? || r.redSec.value <= 0 {
      found := found + [BadRed(i)];
    } else if CycleOk(r) && r.redSec.value >= r.cycleSec.value {
      found := found + [RedTooLong(i)];
    }
    if r.start.None? || r.end.None? {
      found := found + [NoTime(i)];
    } else {
      BandIsEmpty(r);
      if SecondsOfDay(r.start.value) >= SecondsOfDay(r.end.value) {
        found := found + [Backwards(i)];
      }
    }
  }

  /** The list so far: what is wrong with the length and with the first `n` rows. */
  ghost predicate ListsUpTo(errors: seq<Problem>, requests: seq<CycleRequest>, n: nat) {
    forall p :: p in errors <==> IsProblem(p, requests) && !p.Overlap? && (p.TooMany? || p.i < n)
  }

  lemma ListsNone(requests: seq<CycleRequest>)
    ensures ListsUpTo(if |requests| > MAX_ROWS then [TooMany] else [], requests, 0)
  {
    hide IsRowProblem;
  }

  lemma ListsNext(errors: seq<Problem>, found: seq<Problem>, requests: seq<CycleRequest>, n: nat)
    requires n < |requests| && ListsUpTo(errors, requests, n)
    requires forall p :: p in found <==> !p.TooMany? && !p.Overlap? && p.i == n && IsRowProblem(p, requests[n])
    ensures ListsUpTo(errors + found, requests, n + 1)
  {
    hide IsRowProblem;
  }

  lemma ListsAll(errors: seq<Problem>, overlaps: seq<Problem>, requests: seq<CycleRequest>)
    requires ListsUpTo(errors, requests, |requests|)
    requires forall p :: p in overlaps ==> p.Overlap? && IsProblem(p, requests)
    ensures forall p :: p in errors + overlaps ==> IsProblem(p, requests)
    ensures forall p :: IsProblem(p, requests) && !p.Overlap? ==> p in errors + overlaps
  {
    hide IsRowProblem;
  }

  /** The client lists all problems: nothing is listed that is not wrong, every wrong row is, and if rows share a second,
      some that do are. */
  method ValidateCycleRequests(requests: seq<CycleRequest>) returns (errors: seq<Problem>)
    ensures errors == [] <==> Good(requests)
    ensures errors == [] <==> NothingWrong(requests)
    ensures forall p :: p in errors ==> IsProblem(p, requests)
    ensures forall p :: IsProblem(p, requests) && !p.Overlap? ==> p in errors
  {
    hide SecondsOfDay, InBand, IsRowProblem, IsProblem, RowOk, BandOk, NothingWrong, ListsUpTo, AreBands, Good;
    GoodExactlyWhen(requests);
    ListsNone(requests);
    errors := if |requests| > MAX_ROWS then [TooMany] else [];
    var bands: seq<Band> := [];
    NoBands(requests);
    for i := 0 to |requests|
      invariant errors == [] <==> |requests| <= MAX_ROWS && forall k :: 0 <= k < i ==> RowOk(requests[k])
      invariant AreBands(bands, requests) && forall k :: 0 <= k < |bands| ==> bands[k].i < i
      invariant ListsUpTo(errors, requests, i)
      invariant errors == [] ==> |bands| == i && forall k :: 0 <= k < i ==> bands[k].i == k
    {
      var found := RowProblems(i, requests[i]);
      ListsNext(errors, found, requests, i);
      errors := errors + found;
      if BandOk(requests[i]) {
        NextBand(bands, requests, i);
        bands := bands + [BandOf(i, requests[i])];
      } else {
        NoBandNotOk(requests[i]);
      }
    }
    BandsAreProper(bands, requests);
    var overlaps := OverlapProblems(bands);
    forall p | p in overlaps ensures p.Overlap? && IsProblem(p, requests) {
      OverlapIsProblem(p, bands, requests);
    }
    ListsAll(errors, overlaps, requests);
    if errors == [] {
      AllBands(bands, requests);
    } else {
      NotAllOk(requests);
    }
    errors := errors + overlaps;
  }

  lemma NotAllOk(requests: seq<CycleRequest>)
    ensures Good(requests) ==> |requests| <= MAX_ROWS && forall k :: 0 <= k < |requests| ==> RowOk(requests[k])
  {
  }

  lemma NoBands(requests: seq<CycleRequest>)
    ensures AreBands([], requests)
  {
  }

  lemma NextBand(bands: seq<Band>, requests: seq<CycleRequest>, i: nat)
    requires AreBands(bands, requests) && i < |requests| && BandOk(requests[i])
    requires forall k :: 0 <= k < |bands| ==> bands[k].i < i
    ensures AreBands(bands + [BandOf(i, requests[i])], requests) && BandOf(i, requests[i]).i == i
  {
    hide SecondsOfDay;
  }

  lemma NoBandNotOk(r: CycleRequest)
    requires !BandOk(r)
    ensures !RowOk(r)
  {
  }

  lemma BandsAreProper(bands: seq<Band>, requests: seq<CycleRequest>)
    requires AreBands(bands, requests)
    ensures NoRepeats(bands) && forall i :: 0 <= i < |bands| ==> bands[i].start < bands[i].end
  {
  }

  /** With a band for every row, the bands are apart exactly when the rows are. */
  lemma AllBands(bands: seq<Band>, requests: seq<CycleRequest>)
    requires AreBands(bands, requests) && |bands| == |requests| <= MAX_ROWS
    requires forall k :: 0 <= k < |requests| ==> bands[k].i == k && RowOk(requests[k])
    ensures AllApart(bands) <==> Good(requests)
  {
    hide SecondsOfDay;
    assert forall k :: 0 <= k < |requests| ==> bands[k] == BandOf(k, requests[k]);
  }

  /** The server stops at the first problem. It drops fractions of seconds and compares times of day. */
  method ServerValidate(requests: seq<CycleRequest>) returns (error: Option<Problem>)
    ensures error.None? <==> Good(requests)
    ensures error.None? <==> NothingWrong(requests)
    ensures error.Some? ==> IsProblem(error.value, requests)
                            || (error.value.BadRed? && IsProblem(RedTooLong(error.value.i), requests))
  {
    hide NothingWrong, InBand;
    GoodExactlyWhen(requests);
    if |requests| > MAX_ROWS {
      return Some(TooMany);
    }
    var bands: seq<Band> := [];
    for i := 0 to |requests|
      invariant |bands| == i
      invariant forall k :: 0 <= k < i ==> RowOk(requests[k]) && bands[k] == BandOf(k, requests[k])
    {
      var r := requests[i];
      if !CycleOk(r) {
        return Some(BadCycle(i));
      }
      if r.redSec.None? || r.redSec.value <= 0 || r.redSec.value >= r.cycleSec.value {
        return Some(BadRed(i));
      }
      if r.start.None? || r.end.None? {
        return Some(NoTime(i));
      }
      if !(r.start.value / SECOND * SECOND < r.end.value / SECOND * SECOND) {
        BandIsEmpty(r);
        return Some(Backwards(i));
      }
      bands := bands + [BandOf(i, r)];
    }
    var overlaps := OverlapProblems(bands);
    if overlaps == [] {
      return None;
    }
    assert overlaps[0] in overlaps;
    OverlapIsProblem(overlaps[0], bands, requests);
    error := Some(overlaps[0]);
  }

  // ---- which row counts --------------------------------------------------------------------------

  datatype Row = Row(id: int, dayType: DayType, start: int, end: int, cycleSec: int, redSec: int, source: SignalSource)

  datatype Choice = Choice(cycleSec: int, redSec: int, source: Option<SignalSource>)

  const DEFAULT_CYCLE := Choice(120, 90, None)

  function ChoiceOf(r: Option<Row>): Choice {
    match r
    case Some(row) => Choice(row.cycleSec, row.redSec, Some(row.source))
    case None => DEFAULT_CYCLE
  }

  function Contains(day: DayType, at: int): Row -> bool {
    (r: Row) => r.dayType == day && r.start <= at < r.end
  }

  predicate ByDayStartSource(a: Row, b: Row) {
    || a.dayType.Ordinal() < b.dayType.Ordinal()
    || (a.dayType == b.dayType
        && (a.start < b.start || (a.start == b.start && a.source.Priority() <= b.source.Priority())))
  }

  predicate ByDayStartSourceId(a: Row, b: Row) {
    || a.dayType.Ordinal() < b.dayType.Ordinal()
    || (a.dayType == b.dayType
        && (a.start < b.start
            || (a.start == b.start
                && (a.source.Priority() < b.source.Priority() || (a.source == b.source && a.id <= b.id)))))
  }

  predicate ByStartId(a: Row, b: Row) {
    a.start < b.start || (a.start == b.start && a.id <= b.id)
  }

  predicate BySource(a: Row, b: Row) {
    a.source.Priority() <= b.source.Priority()
  }

  /** The list that the server sends. */
  function ServerList(rows: seq<Row>): seq<Row> {
    StableSort(rows, ByDayStartSourceId)
  }

  /** The row that the client shows as the one in force. */
  function EffectiveRow(rows: seq<Row>, day: DayType, at: int): Option<Row> {
    var hits := StableSort(Filter(StableSort(rows, ByDayStartSource), Contains(day, at)), BySource);
    if hits == [] then None else Some(hits[0])
  }

  function EffectiveCycle(rows: seq<Row>, day: DayType, at: int): Choice {
    ChoiceOf(EffectiveRow(rows, day, at))
  }

  function OfDay(day: DayType): Row -> bool {
    (r: Row) => r.dayType == day
  }

  function Covers(at: int): Row -> bool {
    (r: Row) => r.start <= at < r.end
  }

  /** The rows of a day as the analytics reads them. */
  function LoadBands(rows: seq<Row>, day: DayType): seq<Row> {
    StableSort(Filter(rows, OfDay(day)), ByStartId)
  }

  /** The first of those that come first by source. */
  function FirstBySource(rows: seq<Row>): Row
    requires rows != []
  {
    if |rows| == 1 then rows[0]
    else
      var best, last := FirstBySource(rows[..|rows| - 1]), rows[|rows| - 1];
      if last.source.Priority() < best.source.Priority() then last else best
  }

  function SelectBand(bands: seq<Row>, at: int): Option<Row> {
    var containing := Filter(bands, Covers(at));
    if containing == [] then None else Some(FirstBySource(containing))
  }

  function ResolveCycle(bands: seq<Row>, at: int): Choice {
    ChoiceOf(SelectBand(bands, at))
  }

  // ---- both pick the same ------------------------------------------------------------------------

  predicate Preferred(r: Row, o: Row) {
    r.source.Priority() < o.source.Priority() || (r.source == o.source && r.start <= o.start)
  }

  /** The row is in force, and no other row in force has a preferred source, or the same source and an earlier start. */
  ghost predicate InForce(rows: seq<Row>, day: DayType, at: int, r: Row) {
    && r in rows && Contains(day, at)(r)
    && forall o :: o in rows && Contains(day, at)(o) ==>
                     Preferred(r, o)
  }

  /** As `InForce`, and of rows with the same source and start it has the least id. */
  ghost predicate FirstInForce(rows: seq<Row>, day: DayType, at: int, r: Row) {
    && InForce(rows, day, at, r)
    && forall o :: o in rows && Contains(day, at)(o) && o.source == r.source && o.start == r.start ==> r.id <= o.id
  }

  lemma OrdersHold()
    ensures Orders(ByDayStartSource) && Orders(ByDayStartSourceId) && Orders(ByStartId) && Orders(BySource)
  {
  }

  lemma {:induction false} FirstBySourceIs(rows: seq<Row>) returns (i: nat)
    requires rows != []
    ensures FirstLeast(rows, BySource, i) && FirstBySource(rows) == rows[i]
  {
    if |rows| == 1 {
      i := 0;
    } else {
      var k := FirstBySourceIs(rows[..|rows| - 1]);
      i := if rows[|rows| - 1].source.Priority() < rows[k].source.Priority() then |rows| - 1 else k;
    }
  }

  /** Among rows of one day in order of start, the first of the preferred source is preferred to all. */
  lemma FirstIsPreferred(hits: seq<Row>, day: DayType, i: nat)
    requires Sorted(hits, ByDayStartSource) && FirstLeast(hits, BySource, i)
    requires forall j :: 0 <= j < |hits| ==> hits[j].dayType == day
    ensures forall j :: 0 <= j < |hits| ==> Preferred(hits[i], hits[j])
  {
    forall j | 0 <= j < |hits| ensures Preferred(hits[i], hits[j]) {
      assert BySource(hits[i], hits[j]);
      if i < j {
        assert ByDayStartSource(hits[i], hits[j]);
      }
    }
  }

  /** The rows of the list that are in force at the time, in order of day and start. */
  function Hits(rows: seq<Row>, day: DayType, at: int): seq<Row> {
    Filter(StableSort(rows, ByDayStartSource), Contains(day, at))
  }

  lemma HitsAre(rows: seq<Row>, day: DayType, at: int)
    ensures var hits := Hits(rows, day, at);
            Sorted(hits, ByDayStartSource) && forall o :: o in hits <==> o in rows && Contains(day, at)(o)
  {
    OrdersHold();
    hide Orders, ByDayStartSource;
    SortSorts(rows, ByDayStartSource);
    FilterKeepsOrder(StableSort(rows, ByDayStartSource), Contains(day, at), ByDayStartSource);
  }

  /** The client picks a row in force, or none if there is none. */
  lemma EffectiveIsInForce(rows: seq<Row>, day: DayType, at: int)
    ensures var r := EffectiveRow(rows, day, at);
            if r.Some? then InForce(rows, day, at, r.value) else forall o :: o in rows ==> !Contains(day, at)(o)
  {
    HitsAre(rows, day, at);
    OrdersHold();
    hide Orders, ByDayStartSource, StableSort, Filter, Sorted, BySource;
    var hits := Hits(rows, day, at);
    assert forall o :: o in rows && Contains(day, at)(o) ==> o in hits;
    if hits != [] {
      var i := FrontIsFirstLeast(hits, BySource);
      forall j | 0 <= j < |hits| ensures hits[j].dayType == day {
        assert hits[j] in hits;
      }
      FirstIsPreferred(hits, day, i);
      assert hits[i] in hits;
      forall o | o in rows && Contains(day, at)(o) ensures Preferred(hits[i], o) {
        var j :| 0 <= j < |hits| && hits[j] == o;
      }
    }
  }

  /** The bands of a day, filtered by the time. */
  function Containing(bands: seq<Row>, at: int): seq<Row> {
    Filter(bands, Covers(at))
  }

  lemma ContainingAre(rows: seq<Row>, day: DayType, at: int)
    ensures var found := Containing(LoadBands(rows, day), at);
            Sorted(found, ByStartId) && forall o :: o in found <==> o in rows && Contains(day, at)(o)
  {
    OrdersHold();
    hide Orders, ByStartId;
    var ofDay := Filter(rows, OfDay(day));
    SortSorts(ofDay, ByStartId);
    FilterKeepsOrder(StableSort(ofDay, ByStartId), Covers(at), ByStartId);
  }

  predicate Leads(r: Row, o: Row) {
    Preferred(r, o) && (r.source == o.source && r.start == o.start ==> r.id <= o.id)
  }

  lemma FirstLeads(found: seq<Row>, i: nat)
    requires Sorted(found, ByStartId) && FirstLeast(found, BySource, i)
    ensures forall j :: 0 <= j < |found| ==> Leads(found[i], found[j])
  {
    forall j | 0 <= j < |found| ensures Leads(found[i], found[j]) {
      assert BySource(found[i], found[j]);
      if i < j {
        assert ByStartId(found[i], found[j]);
      }
    }
  }

  /** The analytics picks the row in force with the least id. */
  lemma ResolvedIsFirst(rows: seq<Row>, day: DayType, at: int)
    ensures var r := SelectBand(LoadBands(rows, day), at);
            if r.Some? then FirstInForce(rows, day, at, r.value) else forall o :: o in rows ==> !Contains(day, at)(o)
  {
    ContainingAre(rows, day, at);
    hide Orders, ByStartId, StableSort, Filter, Sorted, BySource, LoadBands;
    var found := Containing(LoadBands(rows, day), at);
    if found != [] {
      var i := FirstBySourceIs(found);
      FirstLeads(found, i);
      assert found[i] in found;
      forall o | o in rows && Contains(day, at)(o) ensures Leads(found[i], o) {
        var j :| 0 <= j < |found| && found[j] == o;
      }
    }
  }

  lemma ServerListSorted(rows: seq<Row>)
    ensures Sorted(ServerList(rows), ByDayStartSourceId) && Sorted(ServerList(rows), ByDayStartSource)
    ensures forall o :: o in ServerList(rows) <==> o in rows
  {
    OrdersHold();
    SortSorts(rows, ByDayStartSourceId);
    hide StableSort, Orders;
    var list := ServerList(rows);
    forall i, j | 0 <= i < j < |list| ensures ByDayStartSource(list[i], list[j]) {
      assert ByDayStartSourceId(list[i], list[j]);
    }
  }

  lemma ServerHits(rows: seq<Row>, day: DayType, at: int)
    ensures var hits := Hits(ServerList(rows), day, at);
            && Sorted(hits, ByDayStartSourceId)
            && (forall o :: o in hits <==> o in rows && Contains(day, at)(o))
  {
    ServerListSorted(rows);
    hide ByDayStartSource, ByDayStartSourceId, ServerList;
    SortedStays(ServerList(rows), ByDayStartSource);
    FilterKeepsOrder(ServerList(rows), Contains(day, at), ByDayStartSourceId);
  }

  lemma FirstLeadsAll(hits: seq<Row>, day: DayType, i: nat)
    requires Sorted(hits, ByDayStartSourceId) && FirstLeast(hits, BySource, i)
    requires forall j :: 0 <= j < |hits| ==> hits[j].dayType == day
    ensures forall j :: 0 <= j < |hits| ==> Leads(hits[i], hits[j])
  {
    forall j | 0 <= j < |hits| ensures Leads(hits[i], hits[j]) {
      assert BySource(hits[i], hits[j]);
      if i < j {
        assert ByDayStartSourceId(hits[i], hits[j]);
      }
    }
  }

  /** On the list that the server sends, so does the client. */
  lemma EffectiveIsFirst(rows: seq<Row>, day: DayType, at: int)
    ensures var r := EffectiveRow(ServerList(rows), day, at);
            if r.Some? then FirstInForce(rows, day, at, r.value) else forall o :: o in rows ==> !Contains(day, at)(o)
  {
    ServerHits(rows, day, at);
    OrdersHold();
    hide Orders, ByDayStartSource, ByDayStartSourceId, StableSort, Filter, Sorted, BySource, ServerList;
    var hits := Hits(ServerList(rows), day, at);
    if hits != [] {
      var i := FrontIsFirstLeast(hits, BySource);
      forall j | 0 <= j < |hits| ensures hits[j].dayType == day {
        assert hits[j] in hits;
      }
      FirstLeadsAll(hits, day, i);
      assert hits[i] in hits;
      forall o | o in rows && Contains(day, at)(o) ensures Leads(hits[i], o) {
        var j :| 0 <= j < |hits| && hits[j] == o;
      }
    }
  }

  predicate IdsDiffer(rows: seq<Row>) {
    forall a, b :: a in rows && b in rows && a.id == b.id ==> a == b
  }

  /** The client shows the row that the analytics uses, for every list the server can send. */
  lemma TwinsPickTheSame(rows: seq<Row>, day: DayType, at: int)
    requires IdsDiffer(rows)
    ensures EffectiveCycle(ServerList(rows), day, at) == ResolveCycle(LoadBands(rows, day), at)
    ensures EffectiveRow(ServerList(rows), day, at) == SelectBand(LoadBands(rows, day), at)
  {
    EffectiveIsFirst(rows, day, at);
    ResolvedIsFirst(rows, day, at);
    hide EffectiveRow, SelectBand;
  }

  // ---- a list in another order -------------------------------------------------------------------

  /** All rows in force carry the same cycle and red; by what being in force means they also share their source. */
  ghost predicate InForceAgree(rows: seq<Row>, day: DayType, at: int) {
    forall a, b :: InForce(rows, day, at, a) && InForce(rows, day, at, b) ==>
                     a.cycleSec == b.cycleSec && a.redSec == b.redSec
  }

  lemma SameInForce(list: seq<Row>, rows: seq<Row>, day: DayType, at: int, r: Row)
    requires forall o :: o in list <==> o in rows
    ensures InForce(list, day, at, r) <==> InForce(rows, day, at, r)
  {
  }

  lemma InForceShare(rows: seq<Row>, day: DayType, at: int, a: Row, b: Row)
    requires InForce(rows, day, at, a) && InForce(rows, day, at, b)
    ensures a.source == b.source && a.start == b.start
  {
    assert Preferred(a, b) && Preferred(b, a);
  }

  /** In whatever order the client has the rows, it shows what the analytics uses if all rows in force agree. */
  lemma AnyOrderPicksTheSame(list: seq<Row>, rows: seq<Row>, day: DayType, at: int)
    requires (forall o :: o in list <==> o in rows) && InForceAgree(rows, day, at)
    ensures EffectiveCycle(list, day, at) == ResolveCycle(LoadBands(rows, day), at)
  {
    EffectiveIsInForce(list, day, at);
    ResolvedIsFirst(rows, day, at);
    hide EffectiveRow, SelectBand, LoadBands, InForce;
    var shown, used := EffectiveRow(list, day, at), SelectBand(LoadBands(rows, day), at);
    if shown.Some? && used.Some? {
      SameInForce(list, rows, day, at, shown.value);
      FirstIsInForce(rows, day, at, used.value);
      InForceShare(rows, day, at, shown.value, used.value);
    } else {
      NoneInForce(list, rows, day, at, shown, used);
    }
  }

  lemma FirstIsInForce(rows: seq<Row>, day: DayType, at: int, r: Row)
    requires FirstInForce(rows, day, at, r)
    ensures InForce(rows, day, at, r)
  {
  }

  lemma NoneInForce(list: seq<Row>, rows: seq<Row>, day: DayType, at: int, shown: Option<Row>, used: Option<Row>)
    requires forall o :: o in list <==> o in rows
    requires if shown.Some? then InForce(list, day, at, shown.value) else forall o :: o in list ==> !Contains(day, at)(o)
    requires if used.Some? then FirstInForce(rows, day, at, used.value) else forall o :: o in rows ==> !Contains(day, at)(o)
    ensures shown.Some? <==> used.Some?
  {
  }

  /** The rows with one of them moved to the front. */
  function InFront(rows: seq<Row>, i: nat): seq<Row>
    requires i < |rows|
  {
    [rows[i]] + (rows[..i] + rows[i + 1..])
  }

  lemma InFrontIsSame(rows: seq<Row>, i: nat)
    requires i < |rows|
    ensures multiset(InFront(rows, i)) == multiset(rows)
    ensures forall o :: o in InFront(rows, i) <==> o in rows
  {
    assert rows == rows[..i] + ([rows[i]] + rows[i + 1..]);
    assert forall o :: o in InFront(rows, i) <==> o in multiset(InFront(rows, i));
  }

  /** Sorting puts the first row of the list behind rows of smaller rank only. */
  lemma SortedInFront(rows: seq<Row>, i: nat) returns (before: seq<Row>, after: seq<Row>)
    requires i < |rows|
    ensures StableSort(InFront(rows, i), ByDayStartSource) == before + ([rows[i]] + after)
    ensures forall j :: 0 <= j < |before| ==> !ByDayStartSource(rows[i], before[j])
  {
    hide *;
    var others := StableSort(rows[..i] + rows[i + 1..], ByDayStartSource);
    SortedOnTop(rows, i);
    var n := InsertAt(rows[i], others, ByDayStartSource);
    before, after := others[..n], others[n..];
    assert before + [rows[i]] + after == before + ([rows[i]] + after);
  }

  lemma SortedOnTop(rows: seq<Row>, i: nat)
    requires i < |rows|
    ensures StableSort(InFront(rows, i), ByDayStartSource)
            == Insert(rows[i], StableSort(rows[..i] + rows[i + 1..], ByDayStartSource), ByDayStartSource)
  {
    hide ByDayStartSource, Insert;
    assert InFront(rows, i)[1..] == rows[..i] + rows[i + 1..];
  }

  /** A row in force is shown when it comes first in the list. */
  lemma FrontIsShown(rows: seq<Row>, i: nat, day: DayType, at: int)
    requires i < |rows| && InForce(rows, day, at, rows[i])
    ensures EffectiveRow(InFront(rows, i), day, at) == Some(rows[i])
  {
    hide ByDayStartSource, InForce, Filter;
    var r, list := rows[i], InFront(rows, i);
    InFrontIsSame(rows, i);
    var before, after := SortedInFront(rows, i);
    SortSorts(list, ByDayStartSource) by { OrdersHold(); }
    assert forall o :: o in before + [r] + after ==> o in StableSort(list, ByDayStartSource);
    hide StableSort, InFront;
    FilterConcat(before, [r] + after, Contains(day, at));
    FrontLeads(rows, day, at, r, before, after);
    FirstLeastInFront(Hits(list, day, at), BySource, |Filter(before, Contains(day, at))|) by { OrdersHold(); }
  }

  lemma FrontLeads(rows: seq<Row>, day: DayType, at: int, r: Row, before: seq<Row>, after: seq<Row>)
    requires InForce(rows, day, at, r) && forall o :: o in before + [r] + after ==> o in rows
    requires forall j :: 0 <= j < |before| ==> !ByDayStartSource(r, before[j])
    ensures var c := Contains(day, at);
            Filter([r] + after, c) != [] && Filter([r] + after, c)[0] == r
            && FirstLeast(Filter(before, c) + Filter([r] + after, c), BySource, |Filter(before, c)|)
  {
    var c := Contains(day, at);
    var front, back := Filter(before, c), Filter([r] + after, c);
    assert ([r] + after)[1..] == after;
    assert back == [r] + Filter(after, c);
    forall o | o in front + back ensures o in rows && c(o) {}
    forall j | 0 <= j < |front| ensures !BySource(front[j], r) {
      assert front[j] in front && front[j] in before && Preferred(r, front[j]);
      var k :| 0 <= k < |before| && before[k] == front[j];
    }
    forall j | 0 <= j < |front + back| ensures BySource(r, (front + back)[j]) {
      assert (front + back)[j] in front + back;
    }
  }

  /** Unless all rows in force agree, some order of the same rows makes the client show something else than the analytics
      uses. */
  lemma OrderCanMatter(rows: seq<Row>, day: DayType, at: int) returns (list: seq<Row>)
    requires !InForceAgree(rows, day, at)
    ensures multiset(list) == multiset(rows)
    ensures EffectiveCycle(list, day, at) != ResolveCycle(LoadBands(rows, day), at)
  {
    hide EffectiveRow, SelectBand, LoadBands, InForce;
    var a, b :| InForce(rows, day, at, a) && InForce(rows, day, at, b)
                && !(a.cycleSec == b.cycleSec && a.redSec == b.redSec);
    var r := if ResolveCycle(LoadBands(rows, day), at) == ChoiceOf(Some(a)) then b else a;
    var i := IndexOfRow(rows, day, at, r);
    list := InFront(rows, i);
    InFrontIsSame(rows, i);
    FrontIsShown(rows, i, day, at);
  }

  lemma IndexOfRow(rows: seq<Row>, day: DayType, at: int, r: Row) returns (i: nat)
    requires InForce(rows, day, at, r)
    ensures i < |rows| && rows[i] == r
  {
    i :| 0 <= i < |rows| && rows[i] == r;
  }

  /** What the client shows does not depend on the order of its list exactly when all rows in force agree. The server sends
      the list in an order in which it never does. */
  lemma AnyOrderExactlyWhen(rows: seq<Row>, day: DayType, at: int)
    ensures (forall list :: multiset(list) == multiset(rows) ==>
                              EffectiveCycle(list, day, at) == ResolveCycle(LoadBands(rows, day), at))
            <==> InForceAgree(rows, day, at)
  {
    hide EffectiveCycle, ResolveCycle, LoadBands, InForceAgree;
    if InForceAgree(rows, day, at) {
      forall list | multiset(list) == multiset(rows)
        ensures EffectiveCycle(list, day, at) == ResolveCycle(LoadBands(rows, day), at)
      {
        forall o ensures o in list <==> o in rows {
          assert o in multiset(list) <==> o in multiset(rows);
        }
        AnyOrderPicksTheSame(list, rows, day, at);
      }
    } else {
      var list := OrderCanMatter(rows, day, at);
    }
  }

  // ---- in plain words ----------------------------------------------------------------------------

  /** What a user observed beats what an API says, and both beat an assumption. */
  predicate Beats(a: SignalSource, b: SignalSource) {
    (a == UserObserved && b != UserObserved) || (a == PublicApi && b == DefaultAssumption)
  }

  predicate CountsAt(r: Row, day: DayType, at: int) {
    r.dayType == day && r.start <= at && at < r.end
  }

  /** Of the rows that count at that time, no source beats this row's, and none of its source starts earlier. */
  ghost predicate IsChosen(rows: seq<Row>, day: DayType, at: int, r: Row) {
    && r in rows && CountsAt(r, day, at)
    && forall o :: o in rows && CountsAt(o, day, at) ==>
         !Beats(o.source, r.source) && (o.source == r.source ==> r.start <= o.start)
  }

  lemma ChosenIsInForce(rows: seq<Row>, day: DayType, at: int, r: Row)
    ensures IsChosen(rows, day, at, r) <==> InForce(rows, day, at, r)
  {
    assert forall o :: CountsAt(o, day, at) <==> Contains(day, at)(o);
    forall o ensures Preferred(r, o) <==> !Beats(o.source, r.source) && (o.source == r.source ==> r.start <= o.start) {
    }
  }

  /** Shown is the cycle of a row that counts and that no other beats; without such a row, 120 seconds with 90 of red. */
  lemma ShownMeans(rows: seq<Row>, day: DayType, at: int)
    ensures var c := EffectiveCycle(rows, day, at);
            if exists r :: r in rows && CountsAt(r, day, at)
            then exists r :: IsChosen(rows, day, at, r) && c == Choice(r.cycleSec, r.redSec, Some(r.source))
            else c == Choice(120, 90, None)
  {
    EffectiveIsInForce(rows, day, at);
    hide EffectiveRow, InForce, IsChosen;
    var r := EffectiveRow(rows, day, at);
    if r.Some? {
      ChosenIsInForce(rows, day, at, r.value);
      InForceCounts(rows, day, at, r.value);
    }
  }

  lemma InForceCounts(rows: seq<Row>, day: DayType, at: int, r: Row)
    requires InForce(rows, day, at, r)
    ensures r in rows && CountsAt(r, day, at)
  {
  }

  /** Used is the cycle of such a row as well, of several with the same start the one with the least id. */
  lemma UsedMeans(rows: seq<Row>, day: DayType, at: int)
    ensures var c := ResolveCycle(LoadBands(rows, day), at);
            if exists r :: r in rows && CountsAt(r, day, at)
            then exists r :: && IsChosen(rows, day, at, r) && c == Choice(r.cycleSec, r.redSec, Some(r.source))
                             && forall o :: o in rows && CountsAt(o, day, at) && o.source == r.source && o.start == r.start ==>
                                  r.id <= o.id
            else c == Choice(120, 90, None)
  {
    ResolvedIsFirst(rows, day, at);
    hide SelectBand, LoadBands, IsChosen;
    var r := SelectBand(LoadBands(rows, day), at);
    if r.Some? {
      ChosenIsInForce(rows, day, at, r.value);
      InForceCounts(rows, day, at, r.value);
      hide InForce;
      assert forall o :: CountsAt(o, day, at) <==> Contains(day, at)(o);
    }
  }

  predicate DayBefore(a: DayType, b: DayType) {
    (a == Weekday && b != Weekday) || (a == Saturday && b == SundayHoliday)
  }

  /** The order of the server's list: by day, start, source and id. */
  predicate ListedBefore(a: Row, b: Row) {
    || DayBefore(a.dayType, b.dayType)
    || (a.dayType == b.dayType && a.start < b.start)
    || (a.dayType == b.dayType && a.start == b.start && Beats(a.source, b.source))
    || (a.dayType == b.dayType && a.start == b.start && a.source == b.source && a.id < b.id)
  }

  /** The server sends all rows, in that order. */
  lemma ServerListMeans(rows: seq<Row>)
    ensures var list := ServerList(rows);
            && multiset(list) == multiset(rows)
            && forall i, j :: 0 <= i < j < |list| ==> !ListedBefore(list[j], list[i])
  {
    ServerListSorted(rows);
    var list := ServerList(rows);
    forall i, j | 0 <= i < j < |list| ensures !ListedBefore(list[j], list[i]) {
      assert ByDayStartSourceId(list[i], list[j]);
    }
  }
}
