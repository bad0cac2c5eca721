/** The mutable histogram of LatencyHistogram.kt over an array of counts, proved against the functions of Histogram. */
module LatencyHistograms {
  import opened Basics
  import opened Histogram
  import H = Histogram

  class LatencyHistogram {
    const edges: seq<real>
    const counts: array<int>
    var count: int
    var least: Option<real>
    var greatest: real

    predicate Valid()
      reads this, counts
    {
      counts.Length == |edges| + 1
    }

    function Value(): (h: Hist)
      requires Valid()
      reads this, counts
      ensures Fits(edges, h)
    {
      Hist(counts[..], count, least, greatest)
    }

    constructor (edges: seq<real>)
      ensures Valid() && fresh(counts) && this.edges == edges && Value() == Empty(edges)
    {
      this.edges := edges;
      counts := new int[|edges| + 1](i => 0);
      count, least, greatest := 0, None, 0.0;
    }

    method Record(ms: real)
      requires Valid()
      modifies this, counts
      ensures Valid() && Value() == H.Record(edges, old(Value()), ms)
    {
      var v := if ms < 0.0 then 0.0 else ms;
      var i := IndexOf(edges, v);
      counts[i] := counts[i] + 1;
      count := count + 1;
      if least.None? || v < least.value {
        least := Some(v);
      }
      if v > greatest {
        greatest := v;
      }
    }

    method Add(other: LatencyHistogram)
      requires Valid() && other.Valid() && other.edges == edges && (other == this || other.counts != counts)
      modifies this, counts
      ensures Valid() && Value() == H.Add(edges, old(Value()), old(other.Value()))
    {
      for i := 0 to counts.Length
        invariant forall j :: 0 <= j < counts.Length ==>
                    counts[j] == if j < i then old(counts[j]) + old(other.counts[j]) else old(counts[j])
        invariant forall j :: i <= j < counts.Length ==> other.counts[j] == old(other.counts[j])
        invariant count == old(count) && least == old(least) && greatest == old(greatest)
      {
        counts[i] := counts[i] + other.counts[i];
      }
      count := count + other.count;
      if other.count > 0 {
        if other.least.Some? && (least.None? || other.least.value < least.value) {
          least := other.least;
        }
        if other.greatest > greatest {
          greatest := other.greatest;
        }
      }
    }

    method PercentileMs(q: real) returns (p: Option<int>)
      requires Valid()
      ensures p == H.PercentileMs(edges, Value(), q)
    {
      if count == 0 || least.None? {
        return None;
      }
      var rank := Rank(q, count);
      var seen := 0;
      for i := 0 to counts.Length
        invariant seen == Seen(Value(), i)
        invariant BucketOfRank(Value(), rank, 0) == BucketOfRank(Value(), rank, i)
      {
        seen := seen + counts[i];
        if seen >= rank {
          return Some(Rounded(Upper(edges, Value(), i)));
        }
      }
      return Some(Rounded(greatest));
    }
  }
}
