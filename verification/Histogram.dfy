/** The latency histogram of LatencyHistogram.kt: fixed buckets, exact extremes, and percentiles that stay within the
    bucket of the true sample. Most laws hold for any strictly increasing bucket edges; `EighthEdges` are the edges in use. */
module Histogram {
  import opened Basics

  // ---- buckets -----------------------------------------------------------------------------------

  /** Upper edges of all buckets but the last, which is open above. */
  predicate Increasing(edges: seq<real>) {
    forall i, j :: 0 <= i < j < |edges| ==> edges[i] < edges[j]
  }

  /** The bucket of a value: the first whose upper edge lies above it. */
  function IndexOf(edges: seq<real>, v: real): (i: nat)
    ensures i <= |edges|
    ensures i < |edges| ==> v < edges[i]
    ensures forall j :: 0 <= j < i ==> edges[j] <= v
  {
    if edges == [] || v < edges[0] then 0 else 1 + IndexOf(edges[1..], v)
  }

  lemma LaterBucket(edges: seq<real>, a: real, b: real)
    requires Increasing(edges) && a <= b
    ensures IndexOf(edges, a) <= IndexOf(edges, b)
  {
  }

  // ---- the histogram as a value ------------------------------------------------------------------

  /** `least` is absent before the first sample. */
  datatype Hist = Hist(counts: seq<int>, count: int, least: Option<real>, greatest: real)

  function Empty(edges: seq<real>): Hist {
    Hist(seq(|edges| + 1, i => 0), 0, None, 0.0)
  }

  function AtLeastZero(ms: real): real {
    if ms < 0.0 then 0.0 else ms
  }

  predicate Fits(edges: seq<real>, h: Hist) {
    |h.counts| == |edges| + 1
  }

  function Record(edges: seq<real>, h: Hist, ms: real): (r: Hist)
    requires Fits(edges, h)
    ensures Fits(edges, r)
  {
    var v := AtLeastZero(ms);
    var i := IndexOf(edges, v);
    Hist(h.counts[i := h.counts[i] + 1], h.count + 1,
         if h.least.None? || v < h.least.value then Some(v) else h.least,
         if v > h.greatest then v else h.greatest)
  }

  function Add(edges: seq<real>, h: Hist, other: Hist): (r: Hist)
    requires Fits(edges, h) && Fits(edges, other)
    ensures Fits(edges, r)
  {
    Hist(seq(|h.counts|, i requires 0 <= i < |h.counts| => h.counts[i] + other.counts[i]), h.count + other.count,
         if other.count > 0 && other.least.Some? && (h.least.None? || other.least.value < h.least.value)
         then other.least else h.least,
         if other.count > 0 && other.greatest > h.greatest then other.greatest else h.greatest)
  }

  /** The histogram of a list of samples. */
  function HistOf(edges: seq<real>, xs: seq<real>): (h: Hist)
    ensures Fits(edges, h)
  {
    if xs == [] then Empty(edges) else Record(edges, HistOf(edges, xs[..|xs| - 1]), xs[|xs| - 1])
  }

  // ---- what the numbers mean ---------------------------------------------------------------------

  function CountIn(edges: seq<real>, xs: seq<real>, i: nat): nat {
    if xs == [] then 0
    else
      CountIn(edges, xs[..|xs| - 1], i) + if IndexOf(edges, AtLeastZero(xs[|xs| - 1])) == i then 1 else 0
  }

  predicate IsLeast(xs: seq<real>, m: real) {
    (exists i :: 0 <= i < |xs| && AtLeastZero(xs[i]) == m) && forall i :: 0 <= i < |xs| ==> m <= AtLeastZero(xs[i])
  }

  predicate IsGreatest(xs: seq<real>, m: real) {
    (exists i :: 0 <= i < |xs| && AtLeastZero(xs[i]) == m) && forall i :: 0 <= i < |xs| ==> AtLeastZero(xs[i]) <= m
  }

  predicate CountsRight(edges: seq<real>, xs: seq<real>, h: Hist)
    requires Fits(edges, h)
  {
    h.count == |xs| && forall i :: 0 <= i <= |edges| ==> h.counts[i] == CountIn(edges, xs, i)
  }

  predicate ExtremesRight(xs: seq<real>, h: Hist) {
    if xs == [] then h.least.None? && h.greatest == 0.0
    else h.least.Some? && IsLeast(xs, h.least.value) && IsGreatest(xs, h.greatest)
  }

  lemma CountsNext(edges: seq<real>, xs: seq<real>, h: Hist, x: real)
    requires Fits(edges, h) && CountsRight(edges, xs, h)
    ensures CountsRight(edges, xs + [x], Record(edges, h, x))
  {
    assert (xs + [x])[..|xs|] == xs;
  }

  /** Every count is the number of samples in its bucket, and the extremes are exact. */
  lemma {:induction false} HistMeans(edges: seq<real>, xs: seq<real>)
    ensures CountsRight(edges, xs, HistOf(edges, xs)) && ExtremesRight(xs, HistOf(edges, xs))
  {
    if xs != [] {
      hide CountsRight, ExtremesRight, Record, IndexOf;
      var front, x := xs[..|xs| - 1], xs[|xs| - 1];
      HistMeans(edges, front);
      CountsNext(edges, front, HistOf(edges, front), x);
      ExtremesNext(edges, front, HistOf(edges, front), x);
      assert xs == front + [x];
    }
  }

  lemma ExtremesNext(edges: seq<real>, xs: seq<real>, h: Hist, x: real)
    requires Fits(edges, h) && ExtremesRight(xs, h)
    ensures ExtremesRight(xs + [x], Record(edges, h, x))
  {
    var h' := Record(edges, h, x);
    var all := xs + [x];
    assert all[|xs|] == x;
    if h'.least == h.least {
      var i :| 0 <= i < |xs| && AtLeastZero(xs[i]) == h.least.value;
      assert all[i] == xs[i];
    }
    if xs != [] && h'.greatest == h.greatest {
      var i :| 0 <= i < |xs| && AtLeastZero(xs[i]) == h.greatest;
      assert all[i] == xs[i];
    }
    forall i | 0 <= i < |all|
      ensures h'.least.value <= AtLeastZero(all[i]) && AtLeastZero(all[i]) <= h'.greatest
    {
      if i < |xs| {
        assert all[i] == xs[i];
      }
    }
  }

  /** A histogram without samples has no extremes, and one with samples has. */
  predicate Sound(h: Hist) {
    && 0 <= h.count && (h.count == 0 <==> h.least.None?) && (h.count == 0 ==> h.greatest == 0.0) && 0.0 <= h.greatest
  }

  lemma {:induction false} HistSound(edges: seq<real>, xs: seq<real>)
    ensures Sound(HistOf(edges, xs)) && HistOf(edges, xs).count == |xs|
  {
    if xs != [] {
      HistSound(edges, xs[..|xs| - 1]);
    }
  }

  lemma AddRecord(edges: seq<real>, a: Hist, b: Hist, ms: real)
    requires Fits(edges, a) && Fits(edges, b) && Sound(a) && Sound(b)
    ensures Add(edges, a, Record(edges, b, ms)) == Record(edges, Add(edges, a, b), ms)
    ensures Add(edges, Record(edges, a, ms), b) == Record(edges, Add(edges, a, b), ms)
  {
    var v := AtLeastZero(ms);
    var i := IndexOf(edges, v);
    assert Add(edges, a, Record(edges, b, ms)).counts == Record(edges, Add(edges, a, b), ms).counts;
    assert Add(edges, Record(edges, a, ms), b).counts == Record(edges, Add(edges, a, b), ms).counts;
  }

  lemma AddEmpty(edges: seq<real>, a: Hist)
    requires Fits(edges, a) && Sound(a)
    ensures Add(edges, a, Empty(edges)) == a && Add(edges, Empty(edges), a) == a
  {
    assert Add(edges, a, Empty(edges)).counts == a.counts;
    assert Add(edges, Empty(edges), a).counts == a.counts;
  }

  /** Adding histograms is putting the samples together. */
  lemma {:induction false} AddIsConcat(edges: seq<real>, xs: seq<real>, ys: seq<real>)
    ensures Add(edges, HistOf(edges, xs), HistOf(edges, ys)) == HistOf(edges, xs + ys)
    decreases |ys|
  {
    HistSound(edges, xs);
    if ys == [] {
      assert xs + ys == xs;
      AddEmpty(edges, HistOf(edges, xs));
    } else {
      var front, y := ys[..|ys| - 1], ys[|ys| - 1];
      HistSound(edges, front);
      AddIsConcat(edges, xs, front);
      AddRecord(edges, HistOf(edges, xs), HistOf(edges, front), y);
      assert (xs + ys)[..|xs + ys| - 1] == xs + front;
    }
  }

  // ---- percentiles -------------------------------------------------------------------------------

  function Ceiling(x: real): int {
    -((-x).Floor)
  }

  /** The nearest rank of the quantile `q` among `count` samples. */
  function Rank(q: real, count: int): int {
    var r := Ceiling(q * count as real);
    if r < 1 then 1 else if r > count then count else r
  }

  function Seen(h: Hist, n: nat): int
    requires n <= |h.counts|
  {
    if n == 0 then 0 else Seen(h, n - 1) + h.counts[n - 1]
  }

  function Clamp(x: real, low: real, high: real): real {
    if x < low then low else if x > high then high else x
  }

  /** The upper edge of a bucket, kept between the extremes; the last bucket's edge lies above everything. */
  function Upper(edges: seq<real>, h: Hist, i: nat): real
    requires h.least.Some?
  {
    if i < |edges| then Clamp(edges[i], h.least.value, h.greatest) else h.greatest
  }

  /** The first bucket from `i` on at which `rank` samples have been seen, or the number of buckets. */
  function BucketOfRank(h: Hist, rank: int, i: nat): (r: nat)
    requires i <= |h.counts|
    ensures i <= r <= |h.counts|
    ensures r < |h.counts| ==> Seen(h, r + 1) >= rank
    ensures forall j :: i < j <= r ==> Seen(h, j) < rank
    decreases |h.counts| - i
  {
    if i == |h.counts| || Seen(h, i + 1) >= rank then i else BucketOfRank(h, rank, i + 1)
  }

  /** The percentile before it is rounded to a whole millisecond. */
  function Percentile(edges: seq<real>, h: Hist, q: real): Option<real>
    requires Fits(edges, h)
  {
    if h.count == 0 || h.least.None? then None
    else
      var i := BucketOfRank(h, Rank(q, h.count), 0);
      Some(if i == |h.counts| then h.greatest else Upper(edges, h, i))
  }

  /** To the nearest whole number, halves up. */
  function Rounded(x: real): int {
    (x + 0.5).Floor
  }

  function PercentileMs(edges: seq<real>, h: Hist, q: real): Option<int>
    requires Fits(edges, h)
  {
    var p := Percentile(edges, h, q);
    if p.None? then None else Some(Rounded(p.value))
  }

  function CountBelow(xs: seq<real>, s: real): nat {
    if xs == [] then 0 else CountBelow(xs[..|xs| - 1], s) + if AtLeastZero(xs[|xs| - 1]) < s then 1 else 0
  }

  function CountUpTo(xs: seq<real>, s: real): nat {
    if xs == [] then 0 else CountUpTo(xs[..|xs| - 1], s) + if AtLeastZero(xs[|xs| - 1]) <= s then 1 else 0
  }

  /** The sample that stands at this rank when all are put in order. */
  predicate NearestRank(xs: seq<real>, rank: int, s: real) {
    && (exists i :: 0 <= i < |xs| && AtLeastZero(xs[i]) == s)
    && CountBelow(xs, s) < rank <= CountUpTo(xs, s)
  }

  function CountBefore(edges: seq<real>, xs: seq<real>, n: nat): nat {
    if xs == [] then 0
    else CountBefore(edges, xs[..|xs| - 1], n) + if IndexOf(edges, AtLeastZero(xs[|xs| - 1])) < n then 1 else 0
  }

  lemma {:induction false} CountBeforeNext(edges: seq<real>, xs: seq<real>, n: nat)
    ensures CountBefore(edges, xs, n + 1) == CountBefore(edges, xs, n) + CountIn(edges, xs, n)
    ensures CountBefore(edges, xs, 0) == 0
  {
    if xs != [] {
      CountBeforeNext(edges, xs[..|xs| - 1], n);
    }
  }

  lemma {:induction false} SeenMeans(edges: seq<real>, xs: seq<real>, n: nat)
    requires n <= |edges| + 1
    ensures Seen(HistOf(edges, xs), n) == CountBefore(edges, xs, n)
    decreases n
  {
    CountBeforeNext(edges, xs, if n == 0 then 0 else n - 1);
    if n > 0 {
      SeenMeans(edges, xs, n - 1);
      HistMeans(edges, xs);
    }
  }

  /** Samples below `s` are in its bucket or earlier ones; samples in earlier buckets are below it. */
  lemma {:induction false} BucketsOrder(edges: seq<real>, xs: seq<real>, s: real)
    requires Increasing(edges)
    ensures CountUpTo(xs, s) <= CountBefore(edges, xs, IndexOf(edges, s) + 1)
    ensures CountBefore(edges, xs, IndexOf(edges, s)) <= CountBelow(xs, s)
  {
    if xs != [] {
      BucketsOrder(edges, xs[..|xs| - 1], s);
      var x := AtLeastZero(xs[|xs| - 1]);
      if x <= s {
        LaterBucket(edges, x, s);
      } else {
        LaterBucket(edges, s, x);
      }
    }
  }

  lemma {:induction false} SeenGrows(h: Hist, m: nat, n: nat)
    requires m <= n <= |h.counts| && forall i :: 0 <= i < |h.counts| ==> 0 <= h.counts[i]
    ensures Seen(h, m) <= Seen(h, n)
    decreases n
  {
    if m < n {
      SeenGrows(h, m, n - 1);
    }
  }

  /** The percentile is found in exactly the bucket of the true sample. */
  lemma RankBucket(edges: seq<real>, xs: seq<real>, rank: int, s: real)
    requires Increasing(edges) && NearestRank(xs, rank, s)
    ensures BucketOfRank(HistOf(edges, xs), rank, 0) == IndexOf(edges, s)
  {
    var h, b := HistOf(edges, xs), IndexOf(edges, s);
    HistMeans(edges, xs);
    BucketsOrder(edges, xs, s);
    SeenMeans(edges, xs, b);
    SeenMeans(edges, xs, b + 1);
    var i := BucketOfRank(h, rank, 0);
    if i < b {
      SeenGrows(h, i + 1, b);
    }
  }

  lemma BeforeRounding(edges: seq<real>, xs: seq<real>, q: real, s: real)
    requires Increasing(edges) && xs != [] && NearestRank(xs, Rank(q, |xs|), s)
    ensures var h := HistOf(edges, xs);
            var p := Percentile(edges, h, q);
            && p.Some? && h.least.Some?
            && h.least.value <= p.value <= h.greatest
            && s <= p.value
            && (IndexOf(edges, s) < |edges| ==> p.value <= edges[IndexOf(edges, s)])
  {
    HistMeans(edges, xs);
    RankBucket(edges, xs, Rank(q, |xs|), s);
  }

  /** Accuracy: to the millisecond a percentile lies between the extremes, is no less than the true nearest-rank sample, and
      no more than the upper edge of that sample's bucket. */
  lemma PercentileIsClose(edges: seq<real>, xs: seq<real>, q: real, s: real)
    requires Increasing(edges) && xs != [] && NearestRank(xs, Rank(q, |xs|), s)
    ensures var h := HistOf(edges, xs);
            var p := PercentileMs(edges, h, q);
            && p.Some? && h.least.Some?
            && Rounded(h.least.value) <= p.value <= Rounded(h.greatest)
            && Rounded(s) <= p.value
            && (IndexOf(edges, s) < |edges| ==> p.value <= Rounded(edges[IndexOf(edges, s)]))
  {
    BeforeRounding(edges, xs, q, s);
    hide Percentile, HistOf, IndexOf;
  }

  /** A single sample is reported as it is, to the millisecond. */
  lemma OneSample(edges: seq<real>, x: real, q: real)
    requires Increasing(edges)
    ensures PercentileMs(edges, HistOf(edges, [x]), q) == Some(Rounded(AtLeastZero(x)))
  {
    var xs := [x];
    assert xs[..0] == [] && AtLeastZero(xs[0]) == AtLeastZero(x);
    BeforeRounding(edges, xs, q, AtLeastZero(x));
    HistMeans(edges, xs);
  }

  // ---- the edges in use --------------------------------------------------------------------------

  const SUB_BUCKETS := 8
  const MAX_POWER := 17

  function Power(g: real, n: nat): real {
    if n == 0 then 1.0 else g * Power(g, n - 1)
  }

  /** The ratio of one edge to the one before. */
  predicate EighthRootOfTwo(g: real) {
    g > 1.0 && Power(g, SUB_BUCKETS) == 2.0
  }

  /** Powers of two in eight steps each, from 1 ms to 2^17 ms. */
  function EighthEdges(g: real): seq<real> {
    seq(MAX_POWER * SUB_BUCKETS + 1, i requires 0 <= i => Power(g, i))
  }

  lemma {:induction false} PowerGrows(g: real, m: nat, n: nat)
    requires g > 1.0 && m <= n
    ensures 1.0 <= Power(g, m) <= Power(g, n)
    ensures m < n ==> Power(g, m) < Power(g, n)
    decreases n
  {
    if n > 0 {
      PowerGrows(g, if m == n then m - 1 else m, n - 1);
    }
  }

  lemma {:induction false} PowerSplits(g: real, m: nat, n: nat)
    ensures Power(g, m + n) == Power(g, m) * Power(g, n)
    decreases m
  {
    if m > 0 {
      PowerSplits(g, m - 1, n);
      Associates(g, Power(g, m - 1), Power(g, n));
    }
  }

  lemma Associates(a: real, b: real, c: real)
    ensures a * (b * c) == (a * b) * c
  {
  }

  lemma EdgesIncrease(g: real)
    requires g > 1.0
    ensures Increasing(EighthEdges(g))
  {
    forall i, j | 0 <= i < j < |EighthEdges(g)| ensures EighthEdges(g)[i] < EighthEdges(g)[j] {
      PowerGrows(g, i, j);
    }
  }

  lemma {:induction false} PowerOfRoot(g: real, n: nat)
    requires EighthRootOfTwo(g)
    ensures Power(g, n * SUB_BUCKETS) == Power(2.0, n)
  {
    if n > 0 {
      PowerOfRoot(g, n - 1);
      PowerSplits(g, SUB_BUCKETS, (n - 1) * SUB_BUCKETS);
    }
  }

  /** The last edge is 131072 ms. */
  lemma LastEdge(g: real)
    requires EighthRootOfTwo(g)
    ensures EighthEdges(g)[MAX_POWER * SUB_BUCKETS] == 131072.0
  {
    PowerOfRoot(g, MAX_POWER);
    assert Power(2.0, 4) == 16.0;
    PowerSplits(2.0, 4, 4);
    PowerSplits(2.0, 8, 8);
    PowerSplits(2.0, 1, 16);
  }

  lemma SquaresGrow(a: real, b: real)
    requires 0.0 <= a <= b
    ensures a * a <= b * b
  {
  }

  /** One edge is less than 9.06 % above the one before. */
  lemma RootIsBelow(g: real)
    requires EighthRootOfTwo(g)
    ensures g < 1.0906
  {
    PowerSplits(g, 4, 4);
    PowerSplits(g, 2, 2);
    assert Power(g, 2) == g * g;
    if g >= 1.0906 {
      SquaresGrow(1.0906, g);
      SquaresGrow(1.1894, g * g);
      SquaresGrow(1.4146, Power(g, 4));
    }
  }

  lemma NextEdge(g: real, s: real)
    requires EighthRootOfTwo(g) && 1.0 <= s < 131072.0
    ensures var i := IndexOf(EighthEdges(g), s); i < |EighthEdges(g)| && EighthEdges(g)[i] <= 1.0906 * s
  {
    LastEdge(g);
    RootIsBelow(g);
    EdgeRatio(g, 0);
    hide EighthEdges, EighthRootOfTwo, Power, IndexOf;
    var edges := EighthEdges(g);
    var i := IndexOf(edges, s);
    EdgeRatio(g, i);
    Scales(g, 1.0906, edges[i - 1], s);
  }

  lemma EdgeRatio(g: real, i: nat)
    requires g > 1.0 && i <= MAX_POWER * SUB_BUCKETS
    ensures var edges := EighthEdges(g);
            && |edges| == MAX_POWER * SUB_BUCKETS + 1 && edges[0] == 1.0
            && (i > 0 ==> edges[i] == g * edges[i - 1] && 1.0 <= edges[i - 1])
  {
    if i > 0 {
      PowerGrows(g, 0, i - 1);
    }
  }

  lemma Scales(a: real, b: real, x: real, y: real)
    requires 0.0 <= a <= b && 0.0 <= x <= y
    ensures a * x <= b * y
  {
    assert a * x <= b * x;
    assert b * x <= b * y;
  }

  /** The promised accuracy: between 1 ms and 2^17 ms a percentile is, to the millisecond, no less than the true
      nearest-rank sample and less than 9.06 % above it; below 1 ms it is at most 1 ms. */
  lemma PercentileWithinNinePercent(g: real, xs: seq<real>, q: real, s: real)
    requires EighthRootOfTwo(g) && xs != [] && NearestRank(xs, Rank(q, |xs|), s)
    ensures var p := PercentileMs(EighthEdges(g), HistOf(EighthEdges(g), xs), q);
            && p.Some? && Rounded(s) <= p.value
            && (1.0 <= s < 131072.0 ==> p.value <= Rounded(1.0906 * s))
            && (s < 1.0 ==> p.value <= 1)
  {
    var edges := EighthEdges(g);
    EdgesIncrease(g);
    PercentileIsClose(edges, xs, q, s);
    hide PercentileMs, HistOf, NearestRank;
    if s < 1.0 {
      assert edges[0] == 1.0 && IndexOf(edges, s) == 0;
    } else if s < 131072.0 {
      NextEdge(g, s);
    }
  }

  // ---- a sample at every rank --------------------------------------------------------------------

  lemma {:induction false} CountsAreOrdered(xs: seq<real>, a: real, b: real)
    requires a < b
    ensures CountBelow(xs, a) <= CountUpTo(xs, a) <= CountBelow(xs, b)
  {
    if xs != [] {
      CountsAreOrdered(xs[..|xs| - 1], a, b);
    }
  }

  /** The next smaller sample takes up all samples below `s`. */
  lemma {:induction false} JustBelow(xs: seq<real>, s: real) returns (t: real)
    requires CountBelow(xs, s) > 0
    ensures t < s && (exists i :: 0 <= i < |xs| && AtLeastZero(xs[i]) == t)
    ensures forall i :: 0 <= i < |xs| && AtLeastZero(xs[i]) < s ==> AtLeastZero(xs[i]) <= t
  {
    var front, x := xs[..|xs| - 1], AtLeastZero(xs[|xs| - 1]);
    if CountBelow(front, s) == 0 {
      t := x;
      NoneBelow(front, s);
      assert AtLeastZero(xs[|xs| - 1]) == t;
    } else {
      t := JustBelow(front, s);
      if i :| 0 <= i < |front| && AtLeastZero(front[i]) == t {
        assert AtLeastZero(xs[i]) == t;
      }
      if x < s && x > t {
        t := x;
        assert AtLeastZero(xs[|xs| - 1]) == t;
      }
    }
    forall i | 0 <= i < |xs| && AtLeastZero(xs[i]) < s ensures AtLeastZero(xs[i]) <= t {
      if i < |front| {
        assert front[i] == xs[i];
      }
    }
  }

  lemma {:induction false} NoneBelow(xs: seq<real>, s: real)
    requires CountBelow(xs, s) == 0
    ensures forall i :: 0 <= i < |xs| ==> AtLeastZero(xs[i]) >= s
  {
    if xs != [] {
      var front := xs[..|xs| - 1];
      NoneBelow(front, s);
      forall i | 0 <= i < |xs| ensures AtLeastZero(xs[i]) >= s {
        if i < |front| {
          assert front[i] == xs[i];
        }
      }
    }
  }

  lemma {:induction false} UpToIsBelow(xs: seq<real>, t: real, s: real)
    requires t < s && forall i :: 0 <= i < |xs| && AtLeastZero(xs[i]) < s ==> AtLeastZero(xs[i]) <= t
    ensures CountUpTo(xs, t) == CountBelow(xs, s)
  {
    if xs != [] {
      var front := xs[..|xs| - 1];
      assert forall i :: 0 <= i < |front| ==> front[i] == xs[i];
      UpToIsBelow(front, t, s);
    }
  }

  /** Going down from a sample that is high enough. */
  lemma {:induction false} RankBelow(xs: seq<real>, rank: int, s: real) returns (t: real)
    requires 1 <= rank <= CountUpTo(xs, s) && exists i :: 0 <= i < |xs| && AtLeastZero(xs[i]) == s
    ensures NearestRank(xs, rank, t)
    decreases CountBelow(xs, s)
  {
    if CountBelow(xs, s) < rank {
      t := s;
    } else {
      var below := JustBelow(xs, s);
      UpToIsBelow(xs, below, s);
      SmallerCount(xs, below, s);
      t := RankBelow(xs, rank, below);
    }
  }

  lemma {:induction false} SmallerCount(xs: seq<real>, t: real, s: real)
    requires t < s && exists i :: 0 <= i < |xs| && AtLeastZero(xs[i]) == t
    ensures CountBelow(xs, t) < CountBelow(xs, s)
  {
    var front, x := xs[..|xs| - 1], AtLeastZero(xs[|xs| - 1]);
    CountsAreOrdered(front, t, s);
    if x != t {
      var i :| 0 <= i < |xs| && AtLeastZero(xs[i]) == t;
      assert front[i] == xs[i];
      SmallerCount(front, t, s);
    }
  }

  lemma {:induction false} AllUpTo(xs: seq<real>, m: real)
    requires forall i :: 0 <= i < |xs| ==> AtLeastZero(xs[i]) <= m
    ensures CountUpTo(xs, m) == |xs|
  {
    if xs != [] {
      var front := xs[..|xs| - 1];
      assert forall i :: 0 <= i < |front| ==> front[i] == xs[i];
      AllUpTo(front, m);
    }
  }

  /** There is a true sample at every rank, so the accuracy above always says something. */
  lemma EveryRankHasASample(edges: seq<real>, xs: seq<real>, q: real) returns (s: real)
    requires xs != []
    ensures NearestRank(xs, Rank(q, |xs|), s)
  {
    HistMeans(edges, xs);
    var m := HistOf(edges, xs).greatest;
    AllUpTo(xs, m);
    s := RankBelow(xs, Rank(q, |xs|), m);
  }
}
