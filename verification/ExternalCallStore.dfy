/** The mutable call store of ExternalCallStore.kt. The ghost log holds every call it was told of; `Valid` says that what
    the store keeps is what the log says. */
module ExternalCallStores {
  import opened Basics
  import opened Histogram
  import opened CallStore
  import MetricLaws

  lemma SnapshotStart(edges: seq<real>, st: Store, now: Time)
    requires st.Fits(edges)
    ensures RollAll(edges, st, now, 0) == st && SnapshotOf(edges, st, now, 0) == []
  {
  }

  /** One more series: it is rolled, and its line is appended. */
  lemma SnapshotNext(edges: seq<real>, st: Store, now: Time, n: nat, hour: Bucket)
    requires st.Fits(edges) && n < |st.keys|
    requires hour == SumBuckets(edges, Roll(edges, RollAll(edges, st, now, n).series[st.keys[n]], now).minutes)
    ensures var key := st.keys[n];
            var rolled := Roll(edges, RollAll(edges, st, now, n).series[key], now);
            && RollAll(edges, st, now, n + 1).series == RollAll(edges, st, now, n).series[key := rolled]
            && SnapshotOf(edges, st, now, n + 1) == SnapshotOf(edges, st, now, n)
               + [OpStats(key, WindowOf(edges, rolled.today), WindowOf(edges, hour))]
  {
    hide Roll, WindowOf, SumBuckets;
  }

  class ExternalCallStore {
    const edges: seq<real>
    var series: map<Key, Series>
    var keys: seq<Key>
    /** Every call so far, and the latest time the clock has shown. */
    ghost var log: seq<Call>
    ghost var clock: Time

    function Value(): Store
      reads this
    {
      Store(series, keys)
    }

    ghost predicate Valid()
      reads this
    {
      Value().Fits(edges) && Holds(edges, Value(), log, clock)
    }

    constructor (edges: seq<real>, now: Time)
      ensures Valid() && this.edges == edges && clock == now && log == []
    {
      this.edges, series, keys := edges, map[], [];
      log, clock := [], now;
      new;
      EmptyHolds(edges, now);
    }

    /** `now` is what the clock shows; it never goes back. */
    method Record(now: Time, source: Source, op: string, ms: real, outcome: CallOutcome)
      requires Valid() && clock <= now
      modifies this
      ensures Valid() && clock == now && log == old(log) + [Call(now, Key(source, op), ms, outcome)]
      ensures Value() == RecordCall(edges, old(Value()), now, Key(source, op), ms, outcome)
    {
      hide Roll, NewSeries, Holds, MinuteOf, KstDate, RecordIn, RecordMinute;
      var key := Key(source, op);
      RecordHolds(edges, Value(), log, clock, Call(now, key, ms, outcome));
      if key !in series {
        series := series[key := NewSeries(edges, now)];
        keys := keys + [key];
      }
      var s := Roll(edges, series[key], now);
      s := s.(today := RecordIn(edges, s.today, ms, outcome));
      s := s.(minutes := RecordMinute(edges, s.minutes, MinuteOf(now), ms, outcome));
      series := series[key := s];
      log, clock := log + [Call(now, key, ms, outcome)], now;
      assert series == RecordCall(edges, old(Value()), now, key, ms, outcome).series;
    }

    /** The calls of a source since midnight. */
    method TodayCalls(source: Source, now: Time) returns (n: int)
      requires Valid() && clock <= now
      modifies this
      ensures Valid() && clock == now && log == old(log) && keys == old(keys)
      ensures n == |Select(log, OfSource(source, KstDate(now)))|
      ensures n == MetricLaws.CountOf(log, MetricLaws.Which.TodayOf(source, now), MetricLaws.Made)
    {
      hide Roll, Holds, KstDate, Select, Calls;
      MetricLaws.TodayCallsTell(log, source, now);
      ghost var st := Value();
      TodayCallsMean(edges, st, log, source, clock, now);
      n := 0;
      for i := 0 to |keys|
        invariant keys == old(keys) && log == old(log) && clock == old(clock)
        invariant Value() == RollSource(edges, st, source, now, i) && n == TodaySum(edges, st, source, now, i)
      {
        var key := keys[i];
        if key.source == source {
          series := series[key := Roll(edges, series[key], now)];
          n := n + Calls(series[key].today);
        }
      }
      clock := now;
    }

    method Together(minutes: seq<(int, Bucket)>) returns (hour: Bucket)
      requires forall i :: 0 <= i < |minutes| ==> minutes[i].1.Fits(edges)
      ensures hour == SumBuckets(edges, minutes)
    {
      hour := EmptyBucket(edges);
      for j := 0 to |minutes|
        invariant hour == SumBuckets(edges, minutes[..j])
      {
        assert minutes[..j + 1][..j] == minutes[..j];
        hour := AddIn(edges, hour, minutes[j].1);
      }
      assert minutes[..|minutes|] == minutes;
    }

    /** One line for each key that was ever called. */
    method Snapshot(now: Time) returns (stats: seq<OpStats>)
      requires Valid() && clock <= now
      modifies this
      ensures Valid() && clock == now && log == old(log) && keys == old(keys)
      ensures |stats| == |keys| && forall i :: 0 <= i < |keys| ==> stats[i] == LogStats(edges, log, keys[i], now)
      ensures forall g, i :: EighthRootOfTwo(g) && edges == EighthEdges(g) && 0 <= i < |keys| ==>
                && stats[i].key == keys[i]
                && MetricLaws.Tells(stats[i].today, log, MetricLaws.Today(keys[i], now))
                && MetricLaws.Tells(stats[i].lastHour, log, MetricLaws.LastHour(keys[i], now))
      ensures forall k :: k in keys <==> CallStore.Seen(log, k)
      ensures forall i, j :: 0 <= i < j < |keys| ==> CalledBefore(log, keys[i], keys[j])
      ensures forall k :: k in series ==> |series[k].minutes| <= HOUR_MINUTES
    {
      hide Roll, Holds, LogStats, WindowOf, CallStore.Seen, SumBuckets, RollAll, SnapshotOf;
      hide MetricLaws.Tells, EighthRootOfTwo, EighthEdges, CalledBefore;
      ghost var st := Value();
      SnapshotMeans(edges, st, log, clock, now);
      stats := [];
      SnapshotStart(edges, st, now);
      for i := 0 to |keys|
        invariant keys == old(keys) && log == old(log) && clock == old(clock)
        invariant Value() == RollAll(edges, st, now, i) && stats == SnapshotOf(edges, st, now, i)
      {
        var key := keys[i];
        series := series[key := Roll(edges, series[key], now)];
        var hour := Together(series[key].minutes);
        SnapshotNext(edges, st, now, i, hour);
        stats := stats + [OpStats(key, WindowOf(edges, series[key].today), WindowOf(edges, hour))];
      }
      clock := now;
      forall g, i | EighthRootOfTwo(g) && edges == EighthEdges(g) && 0 <= i < |keys|
        ensures stats[i].key == keys[i]
        ensures MetricLaws.Tells(stats[i].today, log, MetricLaws.Today(keys[i], now))
        ensures MetricLaws.Tells(stats[i].lastHour, log, MetricLaws.LastHour(keys[i], now))
      {
        MetricLaws.LineTells(g, log, keys[i], now);
      }
    }
  }
}
