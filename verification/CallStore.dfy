/** Rolling counts of external calls (ExternalCallStore.kt): one bucket for today and one per minute of the last hour,
    for each source and operation, against the plain log of all calls. */
module CallStore {
  import opened Basics
  import opened Histogram

  datatype Source = Tago | Klid

  datatype CallOutcome = Success | HttpError | ApiError | Timeout | IoError {
    function Ordinal(): (i: nat)
      ensures i < 5
    {
      match this
      case Success => 0
      case HttpError => 1
      case ApiError => 2
      case Timeout => 3
      case IoError => 4
    }
  }

  const OUTCOMES: seq<CallOutcome> := [Success, HttpError, ApiError, Timeout, IoError]

  datatype Key = Key(source: Source, op: string)

  datatype Call = Call(at: Time, key: Key, ms: real, outcome: CallOutcome)

  const HOUR_MINUTES := 60
  const MINUTE_MS := 60_000

  function MinuteOf(at: Time): int {
    at / MINUTE_MS
  }

  // ---- buckets -----------------------------------------------------------------------------------

  datatype Bucket = Bucket(outcomes: seq<int>, latency: Hist) {
    predicate Fits(edges: seq<real>) {
      |outcomes| == 5 && Histogram.Fits(edges, latency)
    }

    predicate Sound(edges: seq<real>) {
      Fits(edges) && Histogram.Sound(latency)
    }
  }

  function EmptyBucket(edges: seq<real>): (b: Bucket)
    ensures b.Sound(edges)
  {
    Bucket([0, 0, 0, 0, 0], Empty(edges))
  }

  function RecordIn(edges: seq<real>, b: Bucket, ms: real, outcome: CallOutcome): (r: Bucket)
    requires b.Fits(edges)
    ensures r.Fits(edges) && (b.Sound(edges) ==> r.Sound(edges))
  {
    var i := outcome.Ordinal();
    Bucket(b.outcomes[i := b.outcomes[i] + 1], Record(edges, b.latency, ms))
  }

  function AddIn(edges: seq<real>, b: Bucket, other: Bucket): (r: Bucket)
    requires b.Fits(edges) && other.Fits(edges)
    ensures r.Fits(edges)
  {
    Bucket(seq(5, i requires 0 <= i < 5 => b.outcomes[i] + other.outcomes[i]), Add(edges, b.latency, other.latency))
  }

  /** The bucket of a list of calls. */
  function BucketOf(edges: seq<real>, calls: seq<Call>): (b: Bucket)
    ensures b.Sound(edges)
  {
    if calls == [] then EmptyBucket(edges)
    else
      var last := calls[|calls| - 1];
      RecordIn(edges, BucketOf(edges, calls[..|calls| - 1]), last.ms, last.outcome)
  }

  // ---- the store as a value ----------------------------------------------------------------------

  /** `minutes` is in order of minute. */
  datatype Series = Series(day: int, today: Bucket, minutes: seq<(int, Bucket)>) {
    predicate Fits(edges: seq<real>) {
      today.Fits(edges) && forall i :: 0 <= i < |minutes| ==> minutes[i].1.Fits(edges)
    }
  }

  /** Keys in the order in which they were first seen. */
  datatype Store = Store(series: map<Key, Series>, keys: seq<Key>) {
    predicate Fits(edges: seq<real>) {
      && (forall k :: k in keys ==> k in series)
      && (forall k :: k in series ==> series[k].Fits(edges))
    }
  }

  const EmptyStore := Store(map[], [])

  function DropBefore(minutes: seq<(int, Bucket)>, m: int): (r: seq<(int, Bucket)>)
    ensures forall b :: b in r ==> b in minutes
  {
    if minutes == [] || minutes[0].0 >= m then minutes else DropBefore(minutes[1..], m)
  }

  function Roll(edges: seq<real>, s: Series, now: Time): (r: Series)
    requires s.Fits(edges)
    ensures r.Fits(edges)
  {
    var day := KstDate(now);
    var s1 := if day != s.day then s.(day := day, today := EmptyBucket(edges)) else s;
    var kept := DropBefore(s.minutes, MinuteOf(now) - HOUR_MINUTES + 1);
    assert forall i :: 0 <= i < |kept| ==> kept[i] in kept;
    s1.(minutes := kept)
  }

  /** Records in the bucket of minute `m`, which is made if need be. */
  function RecordMinute(edges: seq<real>, minutes: seq<(int, Bucket)>, m: int, ms: real, outcome: CallOutcome)
      : (r: seq<(int, Bucket)>)
    requires forall i :: 0 <= i < |minutes| ==> minutes[i].1.Fits(edges)
    ensures forall i :: 0 <= i < |r| ==> r[i].1.Fits(edges)
  {
    if minutes == [] then [(m, RecordIn(edges, EmptyBucket(edges), ms, outcome))]
    else
      var front, last := minutes[..|minutes| - 1], minutes[|minutes| - 1];
      if last.0 == m then front + [(m, RecordIn(edges, last.1, ms, outcome))]
      else if last.0 < m then minutes + [(m, RecordIn(edges, EmptyBucket(edges), ms, outcome))]
      else RecordMinute(edges, front, m, ms, outcome) + [last]
  }

  function RecordSeries(edges: seq<real>, s: Series, now: Time, ms: real, outcome: CallOutcome): (r: Series)
    requires s.Fits(edges)
    ensures r.Fits(edges)
  {
    s.(today := RecordIn(edges, s.today, ms, outcome),
       minutes := RecordMinute(edges, s.minutes, MinuteOf(now), ms, outcome))
  }

  function NewSeries(edges: seq<real>, now: Time): (s: Series)
    ensures s.Fits(edges)
  {
    Series(KstDate(now), EmptyBucket(edges), [])
  }

  function RecordCall(edges: seq<real>, st: Store, now: Time, key: Key, ms: real, outcome: CallOutcome): (r: Store)
    requires st.Fits(edges)
    ensures r.Fits(edges)
  {
    var known := key in st.series;
    var s := Roll(edges, if known then st.series[key] else NewSeries(edges, now), now);
    Store(st.series[key := RecordSeries(edges, s, now, ms, outcome)],
          if known then st.keys else st.keys + [key])
  }

  function SumFrom(xs: seq<int>, i: nat): int
    requires i <= |xs|
    decreases |xs| - i
  {
    if i == |xs| then 0 else xs[i] + SumFrom(xs, i + 1)
  }

  function Calls(b: Bucket): int {
    SumFrom(b.outcomes, 0)
  }

  /** Rolls the first `n` series. */
  function RollAll(edges: seq<real>, st: Store, now: Time, n: nat): (r: Store)
    requires st.Fits(edges) && n <= |st.keys|
    ensures r.Fits(edges) && r.keys == st.keys
  {
    if n == 0 then st
    else
      var front := RollAll(edges, st, now, n - 1);
      var k := st.keys[n - 1];
      front.(series := front.series[k := Roll(edges, front.series[k], now)])
  }

  /** Rolls those of the first `n` series that belong to the source. */
  function RollSource(edges: seq<real>, st: Store, source: Source, now: Time, n: nat): (r: Store)
    requires st.Fits(edges) && n <= |st.keys|
    ensures r.Fits(edges) && r.keys == st.keys
  {
    if n == 0 then st
    else
      var front := RollSource(edges, st, source, now, n - 1);
      var k := st.keys[n - 1];
      if k.source == source then front.(series := front.series[k := Roll(edges, front.series[k], now)]) else front
  }

  function TodaySum(edges: seq<real>, st: Store, source: Source, now: Time, n: nat): int
    requires st.Fits(edges) && n <= |st.keys|
  {
    if n == 0 then 0
    else
      var k := st.keys[n - 1];
      TodaySum(edges, st, source, now, n - 1)
      + if k.source == source then Calls(Roll(edges, RollSource(edges, st, source, now, n - 1).series[k], now).today) else 0
  }

  // ---- windows -----------------------------------------------------------------------------------

  datatype Window = Window(calls: int, failures: int, outcomes: map<CallOutcome, int>, p50: Option<int>, p95: Option<int>)

  datatype OpStats = OpStats(key: Key, today: Window, lastHour: Window)

  function WindowOf(edges: seq<real>, b: Bucket): Window
    requires b.Fits(edges)
  {
    Window(Calls(b), SumFrom(b.outcomes, 1),
           map o | o in OUTCOMES && b.outcomes[o.Ordinal()] > 0 :: b.outcomes[o.Ordinal()],
           PercentileMs(edges, b.latency, 0.5), PercentileMs(edges, b.latency, 0.95))
  }

  /** All minute buckets together. */
  function SumBuckets(edges: seq<real>, minutes: seq<(int, Bucket)>): (b: Bucket)
    requires forall i :: 0 <= i < |minutes| ==> minutes[i].1.Fits(edges)
    ensures b.Fits(edges)
  {
    if minutes == [] then EmptyBucket(edges)
    else AddIn(edges, SumBuckets(edges, minutes[..|minutes| - 1]), minutes[|minutes| - 1].1)
  }

  function StatsOf(edges: seq<real>, k: Key, s: Series): OpStats
    requires s.Fits(edges)
  {
    OpStats(k, WindowOf(edges, s.today), WindowOf(edges, SumBuckets(edges, s.minutes)))
  }

  function SnapshotOf(edges: seq<real>, st: Store, now: Time, n: nat): (r: seq<OpStats>)
    requires st.Fits(edges) && n <= |st.keys|
    ensures |r| == n
  {
    if n == 0 then []
    else
      SnapshotOf(edges, st, now, n - 1)
      + [StatsOf(edges, st.keys[n - 1], Roll(edges, RollAll(edges, st, now, n - 1).series[st.keys[n - 1]], now))]
  }

  // ---- the log -----------------------------------------------------------------------------------

  function Select(log: seq<Call>, p: Call -> bool): seq<Call> {
    if log == [] then []
    else
      var last := log[|log| - 1];
      Select(log[..|log| - 1], p) + if p(last) then [last] else []
  }

  function OnDay(k: Key, day: int): Call -> bool {
    (c: Call) => c.key == k && KstDate(c.at) == day
  }

  function InMinute(k: Key, m: int): Call -> bool {
    (c: Call) => c.key == k && MinuteOf(c.at) == m
  }

  /** From minute `lo` on and before minute `hi`. */
  function InMinutes(k: Key, lo: int, hi: int): Call -> bool {
    (c: Call) => c.key == k && lo <= MinuteOf(c.at) < hi
  }

  /** The minute buckets that the log calls for, from `lo` on and before `hi`. */
  function MinutesOf(edges: seq<real>, log: seq<Call>, k: Key, lo: int, hi: int): (r: seq<(int, Bucket)>)
    ensures forall i :: 0 <= i < |r| ==> r[i].1.Fits(edges) && lo <= r[i].0 < hi
    ensures hi >= lo ==> |r| <= hi - lo
    decreases hi - lo
  {
    if hi <= lo then []
    else
      var calls := Select(log, InMinute(k, hi - 1));
      MinutesOf(edges, log, k, lo, hi - 1) + if calls != [] then [(hi - 1, BucketOf(edges, calls))] else []
  }

  /** What a series holds after it was rolled at `t`. */
  function SeriesOf(edges: seq<real>, log: seq<Call>, k: Key, t: Time): (s: Series)
    ensures s.Fits(edges)
  {
    var minute := MinuteOf(t);
    Series(KstDate(t), BucketOf(edges, Select(log, OnDay(k, KstDate(t)))),
           MinutesOf(edges, log, k, minute - HOUR_MINUTES + 1, minute + 1))
  }

  /** Every call of the key happened by `t`. */
  predicate Until(log: seq<Call>, k: Key, t: Time) {
    forall i :: 0 <= i < |log| && log[i].key == k ==> log[i].at <= t
  }

  lemma {:induction false} SelectNone(log: seq<Call>, p: Call -> bool)
    requires forall i :: 0 <= i < |log| ==> !p(log[i])
    ensures Select(log, p) == []
  {
    if log != [] {
      SelectNone(log[..|log| - 1], p);
    }
  }

  lemma SelectLast(log: seq<Call>, c: Call, p: Call -> bool)
    ensures Select(log + [c], p) == Select(log, p) + if p(c) then [c] else []
  {
    assert (log + [c])[..|log|] == log;
  }

  lemma BucketLast(edges: seq<real>, calls: seq<Call>, c: Call)
    ensures BucketOf(edges, calls + [c]) == RecordIn(edges, BucketOf(edges, calls), c.ms, c.outcome)
  {
    assert (calls + [c])[..|calls|] == calls;
  }

  // ---- rolling -----------------------------------------------------------------------------------

  lemma MinutesGrow(a: Time, b: Time)
    requires a <= b
    ensures MinuteOf(a) <= MinuteOf(b) && KstDate(a) <= KstDate(b)
  {
  }

  lemma NothingLater(log: seq<Call>, k: Key, t: Time, m: int)
    requires Until(log, k, t) && MinuteOf(t) < m
    ensures Select(log, InMinute(k, m)) == []
  {
    forall i | 0 <= i < |log| ensures !InMinute(k, m)(log[i]) {
      if log[i].key == k {
        MinutesGrow(log[i].at, t);
      }
    }
    SelectNone(log, InMinute(k, m));
  }

  /** No call, no bucket. */
  lemma {:induction false} NoLaterMinutes(edges: seq<real>, log: seq<Call>, k: Key, t: Time, lo: int, hi: int)
    requires Until(log, k, t) && MinuteOf(t) < hi
    ensures MinutesOf(edges, log, k, lo, hi) == MinutesOf(edges, log, k, lo, MinuteOf(t) + 1)
    decreases hi - MinuteOf(t)
  {
    hide MinuteOf, Select, Until, BucketOf;
    if lo < hi && hi > MinuteOf(t) + 1 {
      NothingLater(log, k, t, hi - 1);
      NoLaterMinutes(edges, log, k, t, lo, hi - 1);
      assert MinutesOf(edges, log, k, lo, hi) == MinutesOf(edges, log, k, lo, hi - 1);
    }
  }

  lemma {:induction false} DropKeepsLast(minutes: seq<(int, Bucket)>, last: (int, Bucket), m: int)
    requires last.0 >= m
    ensures DropBefore(minutes + [last], m) == DropBefore(minutes, m) + [last]
  {
    if minutes == [] {
      assert [] + [last] == [last];
    } else if minutes[0].0 < m {
      DropKeepsLast(minutes[1..], last, m);
      assert (minutes + [last])[1..] == minutes[1..] + [last];
    }
  }

  lemma {:induction false} DropAll(minutes: seq<(int, Bucket)>, m: int)
    requires forall i :: 0 <= i < |minutes| ==> minutes[i].0 < m
    ensures DropBefore(minutes, m) == []
  {
    if minutes != [] {
      DropAll(minutes[1..], m);
    }
  }

  lemma {:induction false} DropMinutes(edges: seq<real>, log: seq<Call>, k: Key, lo: int, lo': int, hi: int)
    requires lo <= lo'
    ensures DropBefore(MinutesOf(edges, log, k, lo, hi), lo') == MinutesOf(edges, log, k, lo', hi)
    decreases hi - lo
  {
    if hi <= lo' {
      DropAll(MinutesOf(edges, log, k, lo, hi), lo');
    } else {
      var calls := Select(log, InMinute(k, hi - 1));
      DropMinutes(edges, log, k, lo, lo', hi - 1);
      if calls == [] {
        assert MinutesOf(edges, log, k, lo, hi) == MinutesOf(edges, log, k, lo, hi - 1);
        assert MinutesOf(edges, log, k, lo', hi) == MinutesOf(edges, log, k, lo', hi - 1);
      } else {
        DropKeepsLast(MinutesOf(edges, log, k, lo, hi - 1), (hi - 1, BucketOf(edges, calls)), lo');
      }
    }
  }

  lemma MinutesRoll(edges: seq<real>, log: seq<Call>, k: Key, t: Time, now: Time)
    requires Until(log, k, t) && t <= now
    ensures var lo := MinuteOf(now) - HOUR_MINUTES + 1;
            DropBefore(MinutesOf(edges, log, k, MinuteOf(t) - HOUR_MINUTES + 1, MinuteOf(t) + 1), lo)
            == MinutesOf(edges, log, k, lo, MinuteOf(now) + 1)
  {
    hide *;
    MinutesGrow(t, now);
    var lo, lo' := MinuteOf(t) - HOUR_MINUTES + 1, MinuteOf(now) - HOUR_MINUTES + 1;
    DropMinutes(edges, log, k, lo, lo', MinuteOf(t) + 1);
    NoLaterMinutes(edges, log, k, t, lo', MinuteOf(now) + 1);
  }

  lemma TodayRolls(log: seq<Call>, k: Key, t: Time, now: Time)
    requires Until(log, k, t) && t <= now && KstDate(now) != KstDate(t)
    ensures Select(log, OnDay(k, KstDate(now))) == []
  {
    MinutesGrow(t, now);
    forall i | 0 <= i < |log| ensures !OnDay(k, KstDate(now))(log[i]) {
      if log[i].key == k {
        MinutesGrow(log[i].at, t);
      }
    }
    SelectNone(log, OnDay(k, KstDate(now)));
  }

  /** Rolling forward forgets exactly what has left the day and the hour. */
  lemma RollMeans(edges: seq<real>, log: seq<Call>, k: Key, t: Time, now: Time)
    requires Until(log, k, t) && t <= now
    ensures Roll(edges, SeriesOf(edges, log, k, t), now) == SeriesOf(edges, log, k, now)
  {
    hide MinuteOf, KstDate, Select, MinutesOf, DropBefore, Until;
    MinutesRoll(edges, log, k, t, now);
    if KstDate(now) != KstDate(t) {
      TodayRolls(log, k, t, now);
    }
  }

  // ---- recording ---------------------------------------------------------------------------------

  lemma {:induction false} EarlierMinutes(edges: seq<real>, log: seq<Call>, c: Call, k: Key, lo: int, hi: int)
    requires c.key != k || hi <= MinuteOf(c.at)
    ensures MinutesOf(edges, log + [c], k, lo, hi) == MinutesOf(edges, log, k, lo, hi)
    decreases hi - lo
  {
    if lo < hi {
      EarlierMinutes(edges, log, c, k, lo, hi - 1);
      SelectLast(log, c, InMinute(k, hi - 1));
      assert Select(log, InMinute(k, hi - 1)) + [] == Select(log, InMinute(k, hi - 1));
    }
  }

  lemma RecordMinuteMeans(edges: seq<real>, log: seq<Call>, c: Call, lo: int)
    requires lo <= MinuteOf(c.at)
    ensures var m := MinuteOf(c.at);
            RecordMinute(edges, MinutesOf(edges, log, c.key, lo, m + 1), m, c.ms, c.outcome)
            == MinutesOf(edges, log + [c], c.key, lo, m + 1)
  {
    hide MinuteOf, Select, BucketOf, RecordIn;
    var m := MinuteOf(c.at);
    EarlierMinutes(edges, log, c, c.key, lo, m);
    SelectThis(log, c);
    NoCalls(edges);
    var calls := Select(log, InMinute(c.key, m));
    BucketLast(edges, calls, c);
    var front := MinutesOf(edges, log, c.key, lo, m);
    var all := MinutesOf(edges, log, c.key, lo, m + 1);
    if calls != [] {
      assert all[..|all| - 1] == front;
    } else {
      assert all == front;
      assert [] + [c] == [c];
    }
  }

  lemma SelectThis(log: seq<Call>, c: Call)
    ensures Select(log + [c], InMinute(c.key, MinuteOf(c.at))) == Select(log, InMinute(c.key, MinuteOf(c.at))) + [c]
    ensures Select(log + [c], OnDay(c.key, KstDate(c.at))) == Select(log, OnDay(c.key, KstDate(c.at))) + [c]
  {
    SelectLast(log, c, InMinute(c.key, MinuteOf(c.at)));
    SelectLast(log, c, OnDay(c.key, KstDate(c.at)));
  }

  /** Recording a call of now is putting it in the log. */
  lemma RecordMeans(edges: seq<real>, log: seq<Call>, c: Call)
    ensures RecordSeries(edges, SeriesOf(edges, log, c.key, c.at), c.at, c.ms, c.outcome)
            == SeriesOf(edges, log + [c], c.key, c.at)
  {
    hide MinuteOf, KstDate, Select, MinutesOf, RecordMinute, BucketOf, RecordIn;
    RecordMinuteMeans(edges, log, c, MinuteOf(c.at) - HOUR_MINUTES + 1);
    SelectThis(log, c);
    BucketLast(edges, Select(log, OnDay(c.key, KstDate(c.at))), c);
  }

  lemma OtherSeries(edges: seq<real>, log: seq<Call>, c: Call, k: Key, t: Time)
    requires c.key != k
    ensures SeriesOf(edges, log + [c], k, t) == SeriesOf(edges, log, k, t)
  {
    EarlierMinutes(edges, log, c, k, MinuteOf(t) - HOUR_MINUTES + 1, MinuteOf(t) + 1);
    SelectLast(log, c, OnDay(k, KstDate(t)));
    assert Select(log, OnDay(k, KstDate(t))) + [] == Select(log, OnDay(k, KstDate(t)));
    hide MinuteOf, KstDate, Select, MinutesOf;
  }

  lemma NewMeans(edges: seq<real>, log: seq<Call>, k: Key, now: Time)
    requires forall i :: 0 <= i < |log| ==> log[i].key != k
    ensures NewSeries(edges, now) == SeriesOf(edges, log, k, now)
  {
    SelectNone(log, OnDay(k, KstDate(now)));
    NoMinutes(edges, log, k, MinuteOf(now) - HOUR_MINUTES + 1, MinuteOf(now) + 1);
    hide MinuteOf, KstDate, Select, MinutesOf;
  }

  lemma {:induction false} NoMinutes(edges: seq<real>, log: seq<Call>, k: Key, lo: int, hi: int)
    requires forall i :: 0 <= i < |log| ==> log[i].key != k
    ensures MinutesOf(edges, log, k, lo, hi) == []
    decreases hi - lo
  {
    if lo < hi {
      SelectNone(log, InMinute(k, hi - 1));
      NoMinutes(edges, log, k, lo, hi - 1);
    }
  }

  // ---- the hour as one bucket --------------------------------------------------------------------

  lemma AddRecordIn(edges: seq<real>, a: Bucket, b: Bucket, ms: real, outcome: CallOutcome)
    requires a.Sound(edges) && b.Sound(edges)
    ensures AddIn(edges, a, RecordIn(edges, b, ms, outcome)) == RecordIn(edges, AddIn(edges, a, b), ms, outcome)
    ensures AddIn(edges, RecordIn(edges, a, ms, outcome), b) == RecordIn(edges, AddIn(edges, a, b), ms, outcome)
  {
    AddRecord(edges, a.latency, b.latency, ms);
    hide Record, Add;
    var i := outcome.Ordinal();
    var both := AddIn(edges, a, b).outcomes;
    assert AddIn(edges, a, RecordIn(edges, b, ms, outcome)).outcomes == both[i := both[i] + 1];
    assert AddIn(edges, RecordIn(edges, a, ms, outcome), b).outcomes == both[i := both[i] + 1];
  }

  lemma AddEmptyIn(edges: seq<real>, a: Bucket)
    requires a.Sound(edges)
    ensures AddIn(edges, a, EmptyBucket(edges)) == a && AddIn(edges, EmptyBucket(edges), a) == a
  {
    AddEmpty(edges, a.latency);
    assert AddIn(edges, a, EmptyBucket(edges)).outcomes == a.outcomes;
    assert AddIn(edges, EmptyBucket(edges), a).outcomes == a.outcomes;
  }

  /** The hour up to minute `m` and the minute after it. */
  lemma {:induction false} SplitMinutes(edges: seq<real>, log: seq<Call>, k: Key, lo: int, m: int)
    requires lo <= m
    ensures AddIn(edges, BucketOf(edges, Select(log, InMinutes(k, lo, m))), BucketOf(edges, Select(log, InMinute(k, m))))
            == BucketOf(edges, Select(log, InMinutes(k, lo, m + 1)))
  {
    hide Select, MinuteOf, AddIn, RecordIn, BucketOf, InMinutes, InMinute;
    if log == [] {
      SplitNothing(edges, InMinutes(k, lo, m));
      SplitNothing(edges, InMinute(k, m));
      SplitNothing(edges, InMinutes(k, lo, m + 1));
    } else {
      var front, c := log[..|log| - 1], log[|log| - 1];
      SplitMinutes(edges, front, k, lo, m);
      assert log == front + [c];
      InOneOf(k, lo, m, c);
      SelectLast(front, c, InMinutes(k, lo, m));
      SelectLast(front, c, InMinute(k, m));
      SelectLast(front, c, InMinutes(k, lo, m + 1));
      var a, b, all := Select(front, InMinutes(k, lo, m)), Select(front, InMinute(k, m)), Select(front, InMinutes(k, lo, m + 1));
      AddRecordIn(edges, BucketOf(edges, a), BucketOf(edges, b), c.ms, c.outcome);
      BucketLast(edges, a, c);
      BucketLast(edges, b, c);
      BucketLast(edges, all, c);
      assert a + [] == a && b + [] == b && all + [] == all;
    }
  }

  lemma InOneOf(k: Key, lo: int, m: int, c: Call)
    requires lo <= m
    ensures InMinutes(k, lo, m + 1)(c) <==> InMinutes(k, lo, m)(c) || InMinute(k, m)(c)
    ensures !(InMinutes(k, lo, m)(c) && InMinute(k, m)(c))
  {
  }

  lemma SplitNothing(edges: seq<real>, p: Call -> bool)
    ensures Select([], p) == []
    ensures AddIn(edges, BucketOf(edges, []), BucketOf(edges, [])) == BucketOf(edges, [])
  {
    AddEmptyIn(edges, EmptyBucket(edges));
  }

  /** The minute buckets together are the bucket of all calls of those minutes. */
  lemma {:induction false} SumMeans(edges: seq<real>, log: seq<Call>, k: Key, lo: int, hi: int)
    ensures SumBuckets(edges, MinutesOf(edges, log, k, lo, hi)) == BucketOf(edges, Select(log, InMinutes(k, lo, hi)))
    decreases hi - lo
  {
    hide AddIn, BucketOf, Select;
    if hi <= lo {
      SelectNone(log, InMinutes(k, lo, hi));
      NoCalls(edges);
    } else {
      SumMeans(edges, log, k, lo, hi - 1);
      SplitMinutes(edges, log, k, lo, hi - 1);
      var calls := Select(log, InMinute(k, hi - 1));
      var before := MinutesOf(edges, log, k, lo, hi - 1);
      if calls == [] {
        NoCalls(edges);
        AddEmptyIn(edges, BucketOf(edges, Select(log, InMinutes(k, lo, hi - 1))));
        assert MinutesOf(edges, log, k, lo, hi) == before;
      } else {
        var all := MinutesOf(edges, log, k, lo, hi);
        assert all[..|all| - 1] == before;
      }
    }
  }

  lemma NoCalls(edges: seq<real>)
    ensures BucketOf(edges, []) == EmptyBucket(edges)
  {
  }

  // ---- what a window says ------------------------------------------------------------------------

  function CountOutcome(calls: seq<Call>, o: CallOutcome): nat {
    if calls == [] then 0
    else CountOutcome(calls[..|calls| - 1], o) + if calls[|calls| - 1].outcome == o then 1 else 0
  }

  function Durations(calls: seq<Call>): (ms: seq<real>)
    ensures |ms| == |calls| && forall i :: 0 <= i < |calls| ==> ms[i] == calls[i].ms
  {
    seq(|calls|, i requires 0 <= i < |calls| => calls[i].ms)
  }

  lemma SumOfFive(xs: seq<int>)
    requires |xs| == 5
    ensures SumFrom(xs, 0) == xs[0] + xs[1] + xs[2] + xs[3] + xs[4]
    ensures SumFrom(xs, 1) == xs[1] + xs[2] + xs[3] + xs[4]
  {
    assert SumFrom(xs, 5) == 0;
    assert SumFrom(xs, 4) == xs[4];
    assert SumFrom(xs, 3) == xs[3] + xs[4];
    assert SumFrom(xs, 2) == xs[2] + xs[3] + xs[4];
  }

  lemma {:induction false} OutcomesMean(edges: seq<real>, calls: seq<Call>)
    ensures forall o: CallOutcome :: BucketOf(edges, calls).outcomes[o.Ordinal()] == CountOutcome(calls, o)
  {
    hide Record;
    if calls != [] {
      var front, c := calls[..|calls| - 1], calls[|calls| - 1];
      OutcomesMean(edges, front);
      var b := BucketOf(edges, front);
      forall o: CallOutcome ensures RecordIn(edges, b, c.ms, c.outcome).outcomes[o.Ordinal()] == CountOutcome(calls, o) {
        assert o.Ordinal() == c.outcome.Ordinal() <==> o == c.outcome;
      }
    }
  }

  lemma {:induction false} OutcomesAddUp(calls: seq<Call>)
    ensures CountOutcome(calls, Success) + CountOutcome(calls, HttpError) + CountOutcome(calls, ApiError)
            + CountOutcome(calls, Timeout) + CountOutcome(calls, IoError) == |calls|
  {
    if calls != [] {
      OutcomesAddUp(calls[..|calls| - 1]);
    }
  }

  /** The five counts in order of ordinal. */
  lemma OutcomesListed(edges: seq<real>, calls: seq<Call>)
    ensures var xs := BucketOf(edges, calls).outcomes;
            && xs[0] == CountOutcome(calls, Success) && xs[1] == CountOutcome(calls, HttpError)
            && xs[2] == CountOutcome(calls, ApiError) && xs[3] == CountOutcome(calls, Timeout)
            && xs[4] == CountOutcome(calls, IoError)
            && xs[0] + xs[1] + xs[2] + xs[3] + xs[4] == |calls|
  {
    OutcomesMean(edges, calls);
    OutcomesAddUp(calls);
    hide BucketOf, CountOutcome;
    var xs := BucketOf(edges, calls).outcomes;
    assert xs[Success.Ordinal()] == CountOutcome(calls, Success) && xs[HttpError.Ordinal()] == CountOutcome(calls, HttpError);
    assert xs[ApiError.Ordinal()] == CountOutcome(calls, ApiError) && xs[Timeout.Ordinal()] == CountOutcome(calls, Timeout);
    assert xs[IoError.Ordinal()] == CountOutcome(calls, IoError);
  }

  lemma {:induction false} LatencyMeans(edges: seq<real>, calls: seq<Call>)
    ensures BucketOf(edges, calls).latency == HistOf(edges, Durations(calls))
  {
    hide Record;
    if calls != [] {
      LatencyMeans(edges, calls[..|calls| - 1]);
      assert Durations(calls)[..|calls| - 1] == Durations(calls[..|calls| - 1]);
    }
  }

  /** A window over some calls: their number, those that failed, each outcome that occurred, and their percentiles. */
  lemma WindowMeans(edges: seq<real>, calls: seq<Call>)
    ensures var w := WindowOf(edges, BucketOf(edges, calls));
            && w.calls == |calls| && w.failures == |calls| - CountOutcome(calls, Success)
            && (forall o :: o in w.outcomes <==> CountOutcome(calls, o) > 0)
            && (forall o :: o in w.outcomes ==> w.outcomes[o] == CountOutcome(calls, o))
            && w.p50 == PercentileMs(edges, HistOf(edges, Durations(calls)), 0.5)
            && w.p95 == PercentileMs(edges, HistOf(edges, Durations(calls)), 0.95)
  {
    OutcomesMean(edges, calls);
    OutcomesListed(edges, calls);
    LatencyMeans(edges, calls);
    hide BucketOf, CountOutcome, HistOf;
    var b := BucketOf(edges, calls);
    SumOfFive(b.outcomes);
    forall o: CallOutcome ensures o in OUTCOMES && b.outcomes[o.Ordinal()] == CountOutcome(calls, o) {
      assert OUTCOMES[o.Ordinal()] == o;
    }
  }

  // ---- the store against the log -----------------------------------------------------------------

  predicate Seen(log: seq<Call>, k: Key) {
    exists i :: 0 <= i < |log| && log[i].key == k
  }

  /** At some moment up to `now`, no earlier than the last call of the key, the series held what the log says. */
  ghost predicate UpToDate(edges: seq<real>, s: Series, log: seq<Call>, k: Key, now: Time) {
    exists t :: Until(log, k, t) && t <= now && s == SeriesOf(edges, log, k, t)
  }

  /** The first call of `k` came before the first of `l`. */
  predicate CalledBefore(log: seq<Call>, k: Key, l: Key) {
    exists i :: 0 <= i < |log| && log[i].key == k && forall j :: 0 <= j <= i ==> log[j].key != l
  }

  ghost predicate InCallOrder(keys: seq<Key>, log: seq<Call>) {
    forall i, j :: 0 <= i < j < |keys| ==> CalledBefore(log, keys[i], keys[j])
  }

  /** There is a series for exactly the keys of the log, listed once, in the order of first calls. */
  ghost predicate Indexed(st: Store, log: seq<Call>) {
    && InCallOrder(st.keys, log)
    && (forall k :: k in st.series <==> Seen(log, k))
    && (forall k :: k in st.series <==> k in st.keys)
    && (forall i, j :: 0 <= i < j < |st.keys| ==> st.keys[i] != st.keys[j])
  }

  predicate Past(log: seq<Call>, now: Time) {
    forall i :: 0 <= i < |log| ==> log[i].at <= now
  }

  /** The store holds exactly the series of the log. */
  ghost predicate Holds(edges: seq<real>, st: Store, log: seq<Call>, now: Time) {
    && Past(log, now) && Indexed(st, log)
    && Current(edges, st.series, log, now)
  }

  ghost predicate Current(edges: seq<real>, series: map<Key, Series>, log: seq<Call>, now: Time) {
    forall k :: k in series ==> UpToDate(edges, series[k], log, k, now)
  }

  lemma UpToDateRolls(edges: seq<real>, s: Series, log: seq<Call>, k: Key, before: Time, now: Time)
    requires UpToDate(edges, s, log, k, before) && before <= now && s.Fits(edges)
    ensures Roll(edges, s, now) == SeriesOf(edges, log, k, now)
  {
    var t :| Until(log, k, t) && t <= before && s == SeriesOf(edges, log, k, t);
    RollMeans(edges, log, k, t, now);
  }

  lemma UpToDateLater(edges: seq<real>, s: Series, log: seq<Call>, c: Call, k: Key, before: Time, now: Time)
    requires UpToDate(edges, s, log, k, before) && before <= now && c.key != k
    ensures UpToDate(edges, s, log + [c], k, now)
  {
    hide SeriesOf;
    var t :| Until(log, k, t) && t <= before && s == SeriesOf(edges, log, k, t);
    OtherSeries(edges, log, c, k, t);
    assert Until(log + [c], k, t);
  }

  lemma JustNow(edges: seq<real>, log: seq<Call>, k: Key, now: Time)
    requires Past(log, now)
    ensures UpToDate(edges, SeriesOf(edges, log, k, now), log, k, now)
  {
    assert Until(log, k, now);
  }

  lemma SeenLast(log: seq<Call>, c: Call, k: Key)
    ensures Seen(log + [c], k) <==> Seen(log, k) || c.key == k
  {
    assert (log + [c])[|log|] == c;
    if i :| 0 <= i < |log| && log[i].key == k {
      assert (log + [c])[i] == log[i];
    }
  }

  lemma RecordedSeries(edges: seq<real>, st: Store, log: seq<Call>, before: Time, c: Call)
    requires Holds(edges, st, log, before) && before <= c.at && st.Fits(edges)
    ensures RecordCall(edges, st, c.at, c.key, c.ms, c.outcome).series[c.key] == SeriesOf(edges, log + [c], c.key, c.at)
  {
    hide Roll, RecordSeries, SeriesOf, NewSeries, UpToDate;
    if c.key in st.series {
      UpToDateRolls(edges, st.series[c.key], log, c.key, before, c.at);
    } else {
      assert !Seen(log, c.key);
      NewMeans(edges, log, c.key, c.at);
      assert Until(log, c.key, c.at);
      RollMeans(edges, log, c.key, c.at, c.at);
    }
    RecordMeans(edges, log, c);
  }

  lemma RecordIndexed(edges: seq<real>, st: Store, log: seq<Call>, c: Call)
    requires Indexed(st, log) && st.Fits(edges)
    ensures Indexed(RecordCall(edges, st, c.at, c.key, c.ms, c.outcome), log + [c])
  {
    hide Roll, RecordSeries, NewSeries, Seen, CalledBefore;
    forall k ensures Seen(log + [c], k) <==> Seen(log, k) || c.key == k {
      SeenLast(log, c, k);
    }
    var st' := RecordCall(edges, st, c.at, c.key, c.ms, c.outcome);
    forall i, j | 0 <= i < j < |st'.keys| ensures CalledBefore(log + [c], st'.keys[i], st'.keys[j]) {
      assert st'.keys[i] in st.keys && st'.keys[i] != st'.keys[j];
      CalledStill(log, c, st'.keys[i], st'.keys[j]);
    }
  }

  lemma CalledStill(log: seq<Call>, c: Call, k: Key, l: Key)
    requires Seen(log, k) && (CalledBefore(log, k, l) || !Seen(log, l))
    ensures CalledBefore(log + [c], k, l)
  {
    var all := log + [c];
    assert forall i :: 0 <= i < |log| ==> all[i] == log[i];
    var i :| 0 <= i < |log| && log[i].key == k && forall j :: 0 <= j <= i ==> log[j].key != l;
    assert all[i].key == k;
  }

  lemma RecordCurrent(edges: seq<real>, series: map<Key, Series>, s: Series, log: seq<Call>, c: Call, before: Time)
    requires Current(edges, series, log, before) && before <= c.at && UpToDate(edges, s, log + [c], c.key, c.at)
    ensures Current(edges, series[c.key := s], log + [c], c.at)
  {
    hide UpToDate;
    forall k | k in series && k != c.key ensures UpToDate(edges, series[k], log + [c], k, c.at) {
      UpToDateLater(edges, series[k], log, c, k, before, c.at);
    }
  }

  lemma PastNow(log: seq<Call>, before: Time, c: Call)
    requires Past(log, before) && before <= c.at
    ensures Past(log + [c], c.at)
  {
  }

  lemma RecordedIn(edges: seq<real>, st: Store, c: Call)
    requires st.Fits(edges)
    ensures var series := RecordCall(edges, st, c.at, c.key, c.ms, c.outcome).series;
            c.key in series && series == st.series[c.key := series[c.key]]
  {
  }

  /** Recording keeps the store equal to the log, as long as the clock does not go back. */
  lemma RecordHolds(edges: seq<real>, st: Store, log: seq<Call>, before: Time, c: Call)
    requires Holds(edges, st, log, before) && before <= c.at && st.Fits(edges)
    ensures Holds(edges, RecordCall(edges, st, c.at, c.key, c.ms, c.outcome), log + [c], c.at)
  {
    RecordedSeries(edges, st, log, before, c);
    hide Roll, RecordSeries, SeriesOf, NewSeries, UpToDate, Seen, Past, Indexed, Current, RecordCall;
    RecordIndexed(edges, st, log, c);
    PastNow(log, before, c);
    JustNow(edges, log + [c], c.key, c.at);
    RecordCurrent(edges, st.series, SeriesOf(edges, log + [c], c.key, c.at), log, c, before);
    RecordedIn(edges, st, c);
  }

  // ---- reading -----------------------------------------------------------------------------------

  /** The calls of the key today and in the last hour. */
  function TodayOf(log: seq<Call>, k: Key, now: Time): seq<Call> {
    Select(log, OnDay(k, KstDate(now)))
  }

  function HourOf(log: seq<Call>, k: Key, now: Time): seq<Call> {
    Select(log, InMinutes(k, MinuteOf(now) - HOUR_MINUTES + 1, MinuteOf(now) + 1))
  }

  /** What the log says about a key. */
  function LogStats(edges: seq<real>, log: seq<Call>, k: Key, now: Time): OpStats {
    OpStats(k, WindowOf(edges, BucketOf(edges, TodayOf(log, k, now))), WindowOf(edges, BucketOf(edges, HourOf(log, k, now))))
  }

  lemma StatsMean(edges: seq<real>, log: seq<Call>, k: Key, now: Time)
    ensures StatsOf(edges, k, SeriesOf(edges, log, k, now)) == LogStats(edges, log, k, now)
    ensures |SeriesOf(edges, log, k, now).minutes| <= HOUR_MINUTES
  {
    hide WindowOf, SumBuckets, BucketOf, MinutesOf, Select;
    SumMeans(edges, log, k, MinuteOf(now) - HOUR_MINUTES + 1, MinuteOf(now) + 1);
  }

  lemma KeyRolls(edges: seq<real>, st: Store, log: seq<Call>, before: Time, now: Time, i: nat)
    requires Holds(edges, st, log, before) && before <= now && i < |st.keys| && st.Fits(edges)
    ensures Roll(edges, st.series[st.keys[i]], now) == SeriesOf(edges, log, st.keys[i], now)
  {
    hide Roll, SeriesOf, UpToDate;
    var k := st.keys[i];
    assert k in st.series;
    UpToDateRolls(edges, st.series[k], log, k, before, now);
  }

  /** Rolling the first `n` series: those hold what the log says now, the others are as they were. */
  ghost predicate RolledTo(edges: seq<real>, st: Store, r: Store, log: seq<Call>, now: Time, n: nat) {
    && r.keys == st.keys && r.series.Keys == st.series.Keys && n <= |st.keys|
    && (forall i :: 0 <= i < |st.keys| ==> st.keys[i] in st.series)
    && (forall i :: 0 <= i < n ==> r.series[st.keys[i]] == SeriesOf(edges, log, st.keys[i], now))
    && (forall i :: n <= i < |st.keys| ==> r.series[st.keys[i]] == st.series[st.keys[i]])
  }

  lemma RolledNext(edges: seq<real>, st: Store, r: Store, log: seq<Call>, now: Time, n: nat, s: Series)
    requires n < |st.keys| && Indexed(st, log) && RolledTo(edges, st, r, log, now, n)
    requires s == SeriesOf(edges, log, st.keys[n], now)
    ensures RolledTo(edges, st, r.(series := r.series[st.keys[n] := s]), log, now, n + 1)
  {
    hide InCallOrder, SeriesOf, Seen;
  }

  lemma RollAllNext(edges: seq<real>, st: Store, log: seq<Call>, before: Time, now: Time, n: nat)
    requires st.Fits(edges) && n < |st.keys| && Holds(edges, st, log, before) && before <= now
    requires RolledTo(edges, st, RollAll(edges, st, now, n), log, now, n)
    ensures RolledTo(edges, st, RollAll(edges, st, now, n + 1), log, now, n + 1)
  {
    IndexOfHeld(edges, st, log, before);
    KeyRolls(edges, st, log, before, now, n);
    hide Roll, SeriesOf, Indexed, Holds;
    RolledNext(edges, st, RollAll(edges, st, now, n), log, now, n, SeriesOf(edges, log, st.keys[n], now));
  }

  lemma IndexOfHeld(edges: seq<real>, st: Store, log: seq<Call>, now: Time)
    requires Holds(edges, st, log, now)
    ensures Indexed(st, log)
  {
  }

  lemma {:induction false} RollAllMeans(edges: seq<real>, st: Store, log: seq<Call>, before: Time, now: Time, n: nat)
    requires Holds(edges, st, log, before) && before <= now && n <= |st.keys| && st.Fits(edges)
    ensures RolledTo(edges, st, RollAll(edges, st, now, n), log, now, n)
  {
    hide Roll, SeriesOf, Indexed, Holds, RolledTo, RollAll;
    if n == 0 {
      IndexOfHeld(edges, st, log, before);
      NothingRolled(edges, st, log, now);
    } else {
      RollAllMeans(edges, st, log, before, now, n - 1);
      RollAllNext(edges, st, log, before, now, n - 1);
    }
  }

  lemma NothingRolled(edges: seq<real>, st: Store, log: seq<Call>, now: Time)
    requires Indexed(st, log) && st.Fits(edges)
    ensures RolledTo(edges, st, RollAll(edges, st, now, 0), log, now, 0)
  {
    hide InCallOrder;
  }

  lemma RolledHolds(edges: seq<real>, st: Store, r: Store, log: seq<Call>, before: Time, now: Time)
    requires Holds(edges, st, log, before) && before <= now && RolledTo(edges, st, r, log, now, |st.keys|)
    ensures Holds(edges, r, log, now)
  {
    hide InCallOrder, SeriesOf, UpToDate, Seen;
    assert Past(log, now);
    forall k | k in r.series ensures UpToDate(edges, r.series[k], log, k, now) {
      var i :| 0 <= i < |st.keys| && st.keys[i] == k;
      JustNow(edges, log, k, now);
    }
  }

  lemma {:induction false} SnapshotStats(edges: seq<real>, st: Store, log: seq<Call>, before: Time, now: Time, n: nat)
    requires Holds(edges, st, log, before) && before <= now && n <= |st.keys| && st.Fits(edges)
    ensures forall i :: 0 <= i < n ==> SnapshotOf(edges, st, now, n)[i] == LogStats(edges, log, st.keys[i], now)
  {
    hide Roll, SeriesOf, StatsOf, LogStats, Holds, RollAll;
    if n > 0 {
      SnapshotStats(edges, st, log, before, now, n - 1);
      RollAllMeans(edges, st, log, before, now, n - 1);
      KeyRolls(edges, st, log, before, now, n - 1);
      StatsMean(edges, log, st.keys[n - 1], now);
      assert RollAll(edges, st, now, n - 1).series[st.keys[n - 1]] == st.series[st.keys[n - 1]];
    }
  }

  /** A snapshot has one line for each key ever called, in the order of first calls, and each line is what the log says:
      today's calls and those of the last 60 minutes. Reading changes nothing that later readings can see, and no series
      holds more than 60 minute buckets. */
  lemma SnapshotMeans(edges: seq<real>, st: Store, log: seq<Call>, before: Time, now: Time)
    requires Holds(edges, st, log, before) && before <= now && st.Fits(edges)
    ensures var stats := SnapshotOf(edges, st, now, |st.keys|);
            && (forall i :: 0 <= i < |stats| ==> stats[i] == LogStats(edges, log, st.keys[i], now))
            && (forall k :: Seen(log, k) <==> k in st.keys)
            && (forall i, j :: 0 <= i < j < |st.keys| ==> CalledBefore(log, st.keys[i], st.keys[j]))
    ensures var after := RollAll(edges, st, now, |st.keys|);
            Holds(edges, after, log, now) && forall k :: k in after.series ==> |after.series[k].minutes| <= HOUR_MINUTES
  {
    hide Roll, SeriesOf, StatsOf, LogStats, Current, Seen, RollAll, CalledBefore;
    SnapshotStats(edges, st, log, before, now, |st.keys|);
    RollAllMeans(edges, st, log, before, now, |st.keys|);
    var after := RollAll(edges, st, now, |st.keys|);
    RolledHolds(edges, st, after, log, before, now);
    forall k | k in after.series ensures |after.series[k].minutes| <= HOUR_MINUTES {
      var i :| 0 <= i < |st.keys| && st.keys[i] == k;
      StatsMean(edges, log, k, now);
    }
  }

  // ---- today's calls of a source -----------------------------------------------------------------

  function OfSource(source: Source, day: int): Call -> bool {
    (c: Call) => c.key.source == source && KstDate(c.at) == day
  }

  /** The calls of the first `n` keys that belong to the source. */
  function DaySum(keys: seq<Key>, log: seq<Call>, source: Source, day: int, n: nat): nat
    requires n <= |keys|
  {
    if n == 0 then 0
    else
      DaySum(keys, log, source, day, n - 1)
      + if keys[n - 1].source == source then |Select(log, OnDay(keys[n - 1], day))| else 0
  }

  lemma {:induction false} DaySumLast(keys: seq<Key>, log: seq<Call>, c: Call, source: Source, day: int, n: nat)
    requires n <= |keys| && forall i, j :: 0 <= i < j < |keys| ==> keys[i] != keys[j]
    ensures DaySum(keys, log + [c], source, day, n)
            == DaySum(keys, log, source, day, n) + if OfSource(source, day)(c) && c.key in keys[..n] then 1 else 0
  {
    if n > 0 {
      DaySumLast(keys, log, c, source, day, n - 1);
      SelectLast(log, c, OnDay(keys[n - 1], day));
      assert keys[..n] == keys[..n - 1] + [keys[n - 1]];
      forall i | 0 <= i < n - 1 ensures keys[i] != keys[n - 1] {}
    }
  }

  lemma {:induction false} DaySumNothing(keys: seq<Key>, source: Source, day: int, n: nat)
    requires n <= |keys|
    ensures DaySum(keys, [], source, day, n) == 0
  {
    if n > 0 {
      DaySumNothing(keys, source, day, n - 1);
    }
  }

  lemma {:induction false} DaySumMeans(keys: seq<Key>, log: seq<Call>, source: Source, day: int)
    requires forall i, j :: 0 <= i < j < |keys| ==> keys[i] != keys[j]
    requires forall i :: 0 <= i < |log| ==> log[i].key in keys
    ensures DaySum(keys, log, source, day, |keys|) == |Select(log, OfSource(source, day))|
    decreases |log|
  {
    if log == [] {
      DaySumNothing(keys, source, day, |keys|);
    } else {
      var front, c := log[..|log| - 1], log[|log| - 1];
      assert log == front + [c];
      DaySumMeans(keys, front, source, day);
      DaySumLast(keys, front, c, source, day, |keys|);
      SelectLast(front, c, OfSource(source, day));
      assert keys[..|keys|] == keys;
    }
  }

  lemma CallsOf(edges: seq<real>, calls: seq<Call>)
    ensures Calls(BucketOf(edges, calls)) == |calls|
  {
    OutcomesListed(edges, calls);
    SumOfFive(BucketOf(edges, calls).outcomes);
    hide BucketOf, CountOutcome;
  }

  /** Rolling only one source's series. */
  ghost predicate SourceRolled(edges: seq<real>, st: Store, r: Store, log: seq<Call>, source: Source, now: Time, n: nat) {
    && r.keys == st.keys && r.series.Keys == st.series.Keys && n <= |st.keys|
    && (forall i :: 0 <= i < |st.keys| ==> st.keys[i] in st.series)
    && (forall i :: 0 <= i < n && st.keys[i].source == source ==>
          r.series[st.keys[i]] == SeriesOf(edges, log, st.keys[i], now))
    && (forall i :: 0 <= i < |st.keys| && (n <= i || st.keys[i].source != source) ==>
          r.series[st.keys[i]] == st.series[st.keys[i]])
  }

  lemma SourceNext(edges: seq<real>, st: Store, r: Store, log: seq<Call>, source: Source, now: Time, n: nat, s: Series)
    requires n < |st.keys| && Indexed(st, log) && SourceRolled(edges, st, r, log, source, now, n)
    requires s == SeriesOf(edges, log, st.keys[n], now)
    ensures st.keys[n].source == source ==>
              SourceRolled(edges, st, r.(series := r.series[st.keys[n] := s]), log, source, now, n + 1)
    ensures st.keys[n].source != source ==> SourceRolled(edges, st, r, log, source, now, n + 1)
  {
    hide InCallOrder, SeriesOf, Seen;
  }

  lemma NoSourceRolled(edges: seq<real>, st: Store, log: seq<Call>, source: Source, now: Time)
    requires Indexed(st, log) && st.Fits(edges)
    ensures SourceRolled(edges, st, RollSource(edges, st, source, now, 0), log, source, now, 0)
  {
    hide InCallOrder;
  }

  lemma RollSourceNext(edges: seq<real>, st: Store, log: seq<Call>, source: Source, before: Time, now: Time, n: nat)
    requires st.Fits(edges) && n < |st.keys| && Holds(edges, st, log, before) && before <= now
    requires SourceRolled(edges, st, RollSource(edges, st, source, now, n), log, source, now, n)
    ensures SourceRolled(edges, st, RollSource(edges, st, source, now, n + 1), log, source, now, n + 1)
  {
    IndexOfHeld(edges, st, log, before);
    KeyRolls(edges, st, log, before, now, n);
    hide Roll, SeriesOf, Indexed, Holds;
    SourceNext(edges, st, RollSource(edges, st, source, now, n), log, source, now, n, SeriesOf(edges, log, st.keys[n], now));
  }

  lemma {:induction false} RollSourceMeans(edges: seq<real>, st: Store, log: seq<Call>, source: Source, before: Time,
                                           now: Time, n: nat)
    requires Holds(edges, st, log, before) && before <= now && n <= |st.keys| && st.Fits(edges)
    ensures SourceRolled(edges, st, RollSource(edges, st, source, now, n), log, source, now, n)
  {
    hide Roll, SeriesOf, Indexed, Holds, SourceRolled, RollSource;
    if n == 0 {
      IndexOfHeld(edges, st, log, before);
      NoSourceRolled(edges, st, log, source, now);
    } else {
      RollSourceMeans(edges, st, log, source, before, now, n - 1);
      RollSourceNext(edges, st, log, source, before, now, n - 1);
    }
  }

  lemma {:induction false} TodaySumMeans(edges: seq<real>, st: Store, log: seq<Call>, source: Source, before: Time,
                                         now: Time, n: nat)
    requires Holds(edges, st, log, before) && before <= now && n <= |st.keys| && st.Fits(edges)
    ensures TodaySum(edges, st, source, now, n) == DaySum(st.keys, log, source, KstDate(now), n)
  {
    hide Roll, Holds, RollSource, Select, BucketOf, Calls, KstDate, MinutesOf;
    if n > 0 {
      var k := st.keys[n - 1];
      TodaySumMeans(edges, st, log, source, before, now, n - 1);
      RollSourceMeans(edges, st, log, source, before, now, n - 1);
      KeyRolls(edges, st, log, before, now, n - 1);
      CallsOf(edges, Select(log, OnDay(k, KstDate(now))));
    }
  }

  lemma SourceHolds(edges: seq<real>, st: Store, r: Store, log: seq<Call>, source: Source, before: Time, now: Time)
    requires Holds(edges, st, log, before) && before <= now && SourceRolled(edges, st, r, log, source, now, |st.keys|)
    ensures Holds(edges, r, log, now)
  {
    hide InCallOrder, SeriesOf, Seen;
    assert Past(log, now);
    forall k | k in r.series ensures UpToDate(edges, r.series[k], log, k, now) {
      var i :| 0 <= i < |st.keys| && st.keys[i] == k;
      if k.source == source {
        JustNow(edges, log, k, now);
      } else {
        assert UpToDate(edges, st.series[k], log, k, before);
      }
    }
  }

  /** The number of today's calls of a source is the number of its calls in the log since midnight, KST. */
  lemma TodayCallsMean(edges: seq<real>, st: Store, log: seq<Call>, source: Source, before: Time, now: Time)
    requires Holds(edges, st, log, before) && before <= now && st.Fits(edges)
    ensures TodaySum(edges, st, source, now, |st.keys|) == |Select(log, OfSource(source, KstDate(now)))|
    ensures Holds(edges, RollSource(edges, st, source, now, |st.keys|), log, now)
  {
    TodaySumMeans(edges, st, log, source, before, now, |st.keys|);
    forall i | 0 <= i < |log| ensures log[i].key in st.keys {
      assert Seen(log, log[i].key);
    }
    DaySumMeans(st.keys, log, source, KstDate(now));
    RollSourceMeans(edges, st, log, source, before, now, |st.keys|);
    SourceHolds(edges, st, RollSource(edges, st, source, now, |st.keys|), log, source, before, now);
  }

  lemma EmptyHolds(edges: seq<real>, now: Time)
    ensures Holds(edges, EmptyStore, [], now) && EmptyStore.Fits(edges)
  {
  }
}
