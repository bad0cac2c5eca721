/** Pooling per-group statistics (lookup.py): count, mean and variance of groups combine to exactly those of all samples
    together, and the choice between a band's own row, the pooled rows and a default. Spread is kept as variance, the
    square of the standard deviation that the rows store. */
module Pooling {
  import opened Basics

  datatype Stats = Stats(count: int, mean: real, variance: real)

  function Square(x: real): real {
    x * x
  }

  /** `x` counted `n` times. */
  function Times(n: int, x: real): real {
    n as real * x
  }

  // ---- samples -----------------------------------------------------------------------------------

  function Sum(xs: seq<real>): real {
    if xs == [] then 0.0 else Sum(xs[..|xs| - 1]) + xs[|xs| - 1]
  }

  /** The sum of squared distances from `c`. */
  function Deviation(xs: seq<real>, c: real): real {
    if xs == [] then 0.0 else Deviation(xs[..|xs| - 1], c) + Square(xs[|xs| - 1] - c)
  }

  function Mean(xs: seq<real>): real
    requires xs != []
  {
    Sum(xs) / |xs| as real
  }

  /** The sample variance. */
  function Variance(xs: seq<real>): real
    requires |xs| >= 2
  {
    Deviation(xs, Mean(xs)) / (|xs| - 1) as real
  }

  /** `s` is what is stored about the samples `xs`. What is stored as the spread of a single sample is arbitrary. */
  ghost predicate Describes(s: Stats, xs: seq<real>) {
    && s.count == |xs|
    && (xs != [] ==> s.mean == Mean(xs))
    && (|xs| >= 2 ==> s.variance == Variance(xs))
  }

  // ---- pooling -----------------------------------------------------------------------------------

  function NonEmpty(groups: seq<Stats>): seq<Stats> {
    if groups == [] then []
    else
      var last := groups[|groups| - 1];
      NonEmpty(groups[..|groups| - 1]) + if last.count > 0 then [last] else []
  }

  function Total(groups: seq<Stats>): int {
    if groups == [] then 0 else Total(groups[..|groups| - 1]) + groups[|groups| - 1].count
  }

  function Weighted(groups: seq<Stats>): real {
    if groups == [] then 0.0
    else Weighted(groups[..|groups| - 1]) + Times(groups[|groups| - 1].count, groups[|groups| - 1].mean)
  }

  function Within(groups: seq<Stats>): real {
    if groups == [] then 0.0
    else Within(groups[..|groups| - 1]) + Times(groups[|groups| - 1].count - 1, groups[|groups| - 1].variance)
  }

  function Between(groups: seq<Stats>, mean: real): real {
    if groups == [] then 0.0
    else
      Between(groups[..|groups| - 1], mean)
      + Times(groups[|groups| - 1].count, Square(groups[|groups| - 1].mean - mean))
  }

  function PoolStats(groups: seq<Stats>): Option<Stats> {
    var some := NonEmpty(groups);
    var total := Total(some);
    if total == 0 then None
    else
      var mean := Weighted(some) / total as real;
      if total == 1 then (if some == [] then None else Some(Stats(1, mean, some[0].variance)))
      else Some(Stats(total, mean, (Within(some) + Between(some, mean)) / (total - 1) as real))
  }

  // ---- exactness ---------------------------------------------------------------------------------

  function Concat(groups: seq<seq<real>>): seq<real> {
    if groups == [] then [] else Concat(groups[..|groups| - 1]) + groups[|groups| - 1]
  }

  ghost predicate AllDescribe(stats: seq<Stats>, groups: seq<seq<real>>) {
    |stats| == |groups| && forall i :: 0 <= i < |stats| ==> Describes(stats[i], groups[i])
  }

  lemma {:induction false} SumConcat(a: seq<real>, b: seq<real>, c: real)
    ensures Sum(a + b) == Sum(a) + Sum(b)
    ensures Deviation(a + b, c) == Deviation(a, c) + Deviation(b, c)
    decreases |b|
  {
    hide Square;
    if b == [] {
      assert a + b == a;
    } else {
      SumConcat(a, b[..|b| - 1], c);
      assert (a + b)[..|a + b| - 1] == a + b[..|b| - 1];
    }
  }

  /** How much `n` samples of sum `s` deviate more from `c` than from `m`. */
  function Offset(s: real, n: int, m: real, c: real): real {
    2.0 * (m - c) * (s - Times(n, m)) + Times(n, Square(m - c))
  }

  lemma OffsetOfOne(x: real, m: real, c: real)
    ensures Square(x - c) == Square(x - m) + 2.0 * (m - c) * (x - m) + Square(m - c)
  {
  }

  lemma TimesNext(n: int, x: real)
    ensures Times(n + 1, x) == Times(n, x) + x
  {
  }

  lemma Distribute(k: real, a: real, b: real)
    ensures k * (a + b) == k * a + k * b
  {
  }

  lemma OffsetNext(s: real, n: int, m: real, c: real, x: real)
    ensures Offset(s + x, n + 1, m, c) == Offset(s, n, m, c) + Square(x - c) - Square(x - m)
  {
    OffsetOfOne(x, m, c);
    TimesNext(n, m);
    TimesNext(n, Square(m - c));
    var k, rest := 2.0 * (m - c), s - Times(n, m);
    Distribute(k, rest, x - m);
    assert s + x - Times(n + 1, m) == rest + (x - m);
    hide Times, Square;
  }

  /** Moving the centre from `m` to `c`. */
  lemma {:induction false} Recentred(xs: seq<real>, m: real, c: real)
    ensures Deviation(xs, c) == Deviation(xs, m) + Offset(Sum(xs), |xs|, m, c)
  {
    if xs == [] {
      assert 2.0 * (m - c) * 0.0 == 0.0;
    } else {
      hide Square, Offset;
      var front, x := xs[..|xs| - 1], xs[|xs| - 1];
      Recentred(front, m, c);
      OffsetNext(Sum(front), |front|, m, c, x);
    }
  }

  /** Around its own mean a group deviates least, by the squared distance for each sample. */
  lemma AroundItsMean(xs: seq<real>, c: real)
    requires xs != []
    ensures Deviation(xs, c) == Deviation(xs, Mean(xs)) + Times(|xs|, Square(Mean(xs) - c))
  {
    Recentred(xs, Mean(xs), c);
    MeanTimesCount(Sum(xs), |xs|);
    OffsetAtMean(Sum(xs), |xs|, Mean(xs), c);
    hide Deviation, Sum, Square, Offset, Times;
  }

  lemma OffsetAtMean(s: real, n: int, m: real, c: real)
    requires Times(n, m) == s
    ensures Offset(s, n, m, c) == Times(n, Square(m - c))
  {
    hide Times, Square;
    assert 2.0 * (m - c) * 0.0 == 0.0;
  }

  lemma MeanTimesCount(s: real, n: int)
    requires n != 0
    ensures Times(n, s / n as real) == s
  {
  }

  lemma DeviationOfOne(x: real)
    ensures Sum([x]) == x && Deviation([x], x) == 0.0
  {
    assert [x][..0] == [];
    assert Square(0.0) == 0.0;
  }

  /** The spread inside a group, whatever is stored for a single sample. */
  lemma WithinGroup(s: Stats, xs: seq<real>)
    requires Describes(s, xs) && xs != []
    ensures Times(s.count - 1, s.variance) == Deviation(xs, Mean(xs))
  {
    if |xs| == 1 {
      DeviationOfOne(xs[0]);
      assert xs == [xs[0]] && Mean(xs) == xs[0];
      assert Times(0, s.variance) == 0.0;
    } else {
      MeanTimesCount(Deviation(xs, Mean(xs)), |xs| - 1);
    }
  }

  /** One group's part of the three sums. */
  lemma GroupParts(s: Stats, xs: seq<real>, c: real)
    requires Describes(s, xs) && xs != []
    ensures Times(s.count, s.mean) == Sum(xs)
    ensures Times(s.count - 1, s.variance) + Times(s.count, Square(s.mean - c)) == Deviation(xs, c)
  {
    MeanTimesCount(Sum(xs), |xs|);
    WithinGroup(s, xs);
    AroundItsMean(xs, c);
    hide Times, Square, Deviation, Sum;
  }

  lemma {:induction false} PooledSums(stats: seq<Stats>, groups: seq<seq<real>>, c: real)
    requires AllDescribe(stats, groups)
    ensures var some := NonEmpty(stats);
            var all := Concat(groups);
            && Total(some) == |all| && Weighted(some) == Sum(all)
            && Within(some) + Between(some, c) == Deviation(all, c)
            && (some == [] <==> all == [])
  {
    hide Times, Square, Deviation, Sum, Total, Weighted, Within, Between, Describes;
    if stats == [] {
      NoGroups(c);
    } else {
      var n := |stats| - 1;
      var front, last, xs := stats[..n], stats[n], groups[n];
      PooledSums(front, groups[..n], c);
      SumConcat(Concat(groups[..n]), xs, c);
      assert Describes(last, xs);
      CountOf(last, xs);
      if xs != [] {
        GroupParts(last, xs, c);
        LastGroup(NonEmpty(front), last, c);
      } else {
        assert Concat(groups) == Concat(groups[..n]);
        assert NonEmpty(stats) == NonEmpty(front);
      }
    }
  }

  lemma NoGroups(c: real)
    ensures Total([]) == 0 && Weighted([]) == 0.0 && Within([]) == 0.0 && Between([], c) == 0.0
    ensures Sum([]) == 0.0 && Deviation([], c) == 0.0
  {
  }

  lemma CountOf(s: Stats, xs: seq<real>)
    requires Describes(s, xs)
    ensures s.count == |xs|
  {
  }

  lemma LastGroup(some: seq<Stats>, last: Stats, c: real)
    ensures Total(some + [last]) == Total(some) + last.count
    ensures Weighted(some + [last]) == Weighted(some) + Times(last.count, last.mean)
    ensures Within(some + [last]) == Within(some) + Times(last.count - 1, last.variance)
    ensures Between(some + [last], c) == Between(some, c) + Times(last.count, Square(last.mean - c))
  {
    hide Times, Square;
    assert (some + [last])[..|some|] == some;
  }

  /** Pooling groups gives exactly the count, mean and sample variance of all their samples together. */
  lemma PoolIsExact(stats: seq<Stats>, groups: seq<seq<real>>)
    requires AllDescribe(stats, groups)
    ensures var all := Concat(groups);
            && (all == [] <==> PoolStats(stats).None?)
            && (all != [] ==> PoolStats(stats).value.count == |all| && PoolStats(stats).value.mean == Mean(all))
            && (|all| >= 2 ==> PoolStats(stats) == Some(Stats(|all|, Mean(all), Variance(all))))
  {
    var all := Concat(groups);
    PooledSums(stats, groups, if all == [] then 0.0 else Mean(all));
    hide NonEmpty, Total, Weighted, Within, Between, Deviation, Sum, Concat;
  }

  // ---- order and grouping do not matter ----------------------------------------------------------

  lemma {:induction false} SumsPermute(a: seq<real>, b: seq<real>, c: real)
    requires multiset(a) == multiset(b)
    ensures Sum(a) == Sum(b) && Deviation(a, c) == Deviation(b, c)
    decreases |a|
  {
    hide Sum, Deviation;
    if a == [] {
      assert |multiset(b)| == 0;
    } else {
      var front, x, left, right := TakeOut(a, b);
      SumsPermute(front, left + right, c);
      SumConcat(front, [x], c);
      MiddleOut(left, x, right, c);
    }
  }

  /** The last element of one, and where the other has it. */
  lemma TakeOut(a: seq<real>, b: seq<real>) returns (front: seq<real>, x: real, left: seq<real>, right: seq<real>)
    requires a != [] && multiset(a) == multiset(b)
    ensures a == front + [x] && b == left + [x] + right && multiset(front) == multiset(left + right)
  {
    front, x := a[..|a| - 1], a[|a| - 1];
    assert a == front + [x];
    assert x in multiset(b);
    var i :| 0 <= i < |b| && b[i] == x;
    left, right := b[..i], b[i + 1..];
    assert b == left + [x] + right;
    assert multiset(front) == multiset(a) - multiset{x};
    assert multiset(left + right) == multiset(b) - multiset{x};
  }

  lemma MiddleOut(left: seq<real>, x: real, right: seq<real>, c: real)
    ensures Sum(left + [x] + right) == Sum(left + right) + Sum([x])
    ensures Deviation(left + [x] + right, c) == Deviation(left + right, c) + Deviation([x], c)
  {
    hide Sum, Deviation;
    SumConcat(left, right, c);
    SumConcat(left + [x], right, c);
    SumConcat(left, [x], c);
  }

  /** However the same samples are grouped and the groups ordered, the pooled values are the same. */
  lemma GroupingDoesNotMatter(stats: seq<Stats>, groups: seq<seq<real>>, stats': seq<Stats>, groups': seq<seq<real>>)
    requires AllDescribe(stats, groups) && AllDescribe(stats', groups')
    requires multiset(Concat(groups)) == multiset(Concat(groups')) && |Concat(groups)| >= 2
    ensures PoolStats(stats) == PoolStats(stats')
  {
    var a, b := Concat(groups), Concat(groups');
    assert |a| == |multiset(a)| == |multiset(b)| == |b|;
    PoolIsExact(stats, groups);
    PoolIsExact(stats', groups');
    hide PoolStats, Concat, Sum, Deviation;
    SumsPermute(a, b, Mean(a));
  }

  // ---- choosing a row ----------------------------------------------------------------------------

  const MIN_SAMPLES := 5

  datatype Band = Band(dayType: int, start: int)

  datatype Provenance = Calibrated | Inherited | Default

  datatype Row = Row(band: Band, stats: Stats)

  /** A chosen distribution by mean and variance, where it came from, and how many samples stand behind it. */
  datatype Resolved = Resolved(mean: real, variance: real, provenance: Provenance, count: int)

  predicate Own(row: Row, band: Band) {
    row.band == band && row.stats.count >= MIN_SAMPLES
  }

  /** The first row of the band with enough samples. */
  function OwnRow(rows: seq<Row>, band: Band): (r: Option<Stats>)
    ensures r.Some? ==> exists i :: 0 <= i < |rows| && Own(rows[i], band) && rows[i].stats == r.value
                                    && forall j :: 0 <= j < i ==> !Own(rows[j], band)
    ensures r.None? ==> forall i :: 0 <= i < |rows| ==> !Own(rows[i], band)
  {
    if rows == [] then None
    else if Own(rows[0], band) then Some(rows[0].stats)
    else OwnRow(rows[1..], band)
  }

  function AllStats(rows: seq<Row>): (r: seq<Stats>)
    ensures |r| == |rows| && forall i :: 0 <= i < |rows| ==> r[i] == rows[i].stats
  {
    seq(|rows|, i requires 0 <= i < |rows| => rows[i].stats)
  }

  /** `floor` is the least variance, `fallback` what to take without enough samples. */
  function Resolve(rows: seq<Row>, band: Band, floor: real, fallback: (real, real)): Resolved {
    var own := OwnRow(rows, band);
    if own.Some? then Resolved(own.value.mean, MaxReal(own.value.variance, floor), Calibrated, own.value.count)
    else
      var pooled := PoolStats(AllStats(rows));
      if pooled.Some? && pooled.value.count >= MIN_SAMPLES
      then Resolved(pooled.value.mean, MaxReal(pooled.value.variance, floor), Inherited, pooled.value.count)
      else Resolved(fallback.0, fallback.1, Default, 0)
  }

  /** The value, but no less than the floor. */
  predicate IsFloored(x: real, value: real, floor: real) {
    x >= value && x >= floor && (x == value || x == floor)
  }

  /** For rows that describe samples: the band's own samples decide if there are five of them, in the first such row;
      otherwise all samples of the line do, exactly, and the default only where even they are fewer than five. */
  lemma ResolveUsesTheSamples(rows: seq<Row>, groups: seq<seq<real>>, band: Band, floor: real, fallback: (real, real))
    requires AllDescribe(AllStats(rows), groups)
    ensures var r := Resolve(rows, band, floor, fallback);
            var all := Concat(groups);
            && (r.provenance.Calibrated? <==> exists i :: 0 <= i < |rows| && rows[i].band == band && |groups[i]| >= 5)
            && (r.provenance.Calibrated? ==>
                  exists i :: 0 <= i < |rows| && rows[i].band == band && |groups[i]| >= 5 && r.count == |groups[i]|
                              && r.mean == Mean(groups[i]) && IsFloored(r.variance, Variance(groups[i]), floor)
                              && forall j :: 0 <= j < i ==> rows[j].band != band || |groups[j]| < 5)
            && (r.provenance.Inherited? ==>
                  |all| >= 5 && r.count == |all| && r.mean == Mean(all) && IsFloored(r.variance, Variance(all), floor))
            && (r.provenance.Default? ==> |all| < 5 && r.count == 0 && (r.mean, r.variance) == fallback)
  {
    hide PoolStats, Mean, Variance, Concat;
    PoolIsExact(AllStats(rows), groups);
    forall i | 0 <= i < |rows| ensures rows[i].stats.count == |groups[i]| && Describes(rows[i].stats, groups[i]) {
      assert Describes(AllStats(rows)[i], groups[i]);
    }
    var own := OwnRow(rows, band);
    if own.Some? {
      var i :| 0 <= i < |rows| && Own(rows[i], band) && rows[i].stats == own.value;
    }
  }

  /** The two inputs of each chosen vehicle. */
  datatype ResolvedCandidate = ResolvedCandidate(predictionError: Resolved, travelTime: Resolved)

  function Counts(chosen: seq<ResolvedCandidate>): seq<int> {
    if chosen == [] then []
    else
      Counts(chosen[..|chosen| - 1])
      + [chosen[|chosen| - 1].predictionError.count, chosen[|chosen| - 1].travelTime.count]
  }

  function Least(counts: seq<int>): (r: Option<int>)
    ensures r.None? <==> counts == []
    ensures r.Some? ==> r.value in counts && forall c :: c in counts ==> r.value <= c
  {
    if counts == [] then None
    else
      var last := counts[|counts| - 1];
      assert counts == counts[..|counts| - 1] + [last];
      var rest := Least(counts[..|counts| - 1]);
      if rest.None? || last < rest.value then Some(last) else rest
  }

  function MinSampleCount(chosen: seq<ResolvedCandidate>): Option<int> {
    Least(Counts(chosen))
  }

  predicate CountedBy(chosen: seq<ResolvedCandidate>, x: int) {
    exists c :: c in chosen && (x == c.predictionError.count || x == c.travelTime.count)
  }

  lemma CountedNext(front: seq<ResolvedCandidate>, last: ResolvedCandidate, x: int)
    ensures CountedBy(front + [last], x) <==>
            CountedBy(front, x) || x == last.predictionError.count || x == last.travelTime.count
  {
    var all := front + [last];
    assert last in all && forall c :: c in all <==> c in front || c == last;
  }

  lemma {:induction false} CountsOf(chosen: seq<ResolvedCandidate>)
    ensures forall x :: x in Counts(chosen) <==> CountedBy(chosen, x)
    ensures Counts(chosen) == [] <==> chosen == []
  {
    if chosen != [] {
      var front, last := chosen[..|chosen| - 1], chosen[|chosen| - 1];
      CountsOf(front);
      hide CountedBy;
      forall x ensures x in Counts(chosen) <==> CountedBy(chosen, x) {
        assert chosen == front + [last];
        CountedNext(front, last, x);
      }
    }
  }

  /** A recommendation without vehicles has no sample count; otherwise it is the count of one of the inputs, no more than
      that of any other, and none at all or at least five. */
  lemma ThinnestInput(chosen: seq<ResolvedCandidate>)
    requires forall c :: c in chosen ==>
               && (c.predictionError.count == 0 || c.predictionError.count >= 5)
               && (c.travelTime.count == 0 || c.travelTime.count >= 5)
    ensures var least := MinSampleCount(chosen);
            && (least.None? <==> chosen == [])
            && (least.Some? ==>
                  && (least.value == 0 || least.value >= 5) && CountedBy(chosen, least.value)
                  && forall c :: c in chosen ==> least.value <= c.predictionError.count && least.value <= c.travelTime.count)
  {
    CountsOf(chosen);
    hide Counts;
    forall c | c in chosen ensures c.predictionError.count in Counts(chosen) && c.travelTime.count in Counts(chosen) {}
  }
}
