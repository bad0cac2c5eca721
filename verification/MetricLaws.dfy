/** The numbers shown for external calls, said of the plain log of calls: which calls count as today's and as those of
    the last hour, how many there were, how they ended, and how long they took. */
module MetricLaws {
  import opened Basics
  import opened Histogram
  import opened CallStore

  // ---- which calls -------------------------------------------------------------------------------

  /** Day `day` in Seoul, nine hours ahead. */
  predicate IsDay(day: int, at: Time) {
    day * 86_400_000 <= at + 32_400_000 < (day + 1) * 86_400_000
  }

  predicate IsMinute(minute: int, at: Time) {
    minute * 60_000 <= at < (minute + 1) * 60_000
  }

  /** The calls that a number is about: those of a key or of a source today, or of a key in the minute of `now` and the 59
      minutes before. */
  datatype Which = Today(key: Key, now: Time) | LastHour(key: Key, now: Time) | TodayOf(source: Source, now: Time)

  ghost predicate Meant(which: Which, c: Call) {
    match which
    case Today(key, now) => c.key == key && exists day :: IsDay(day, now) && IsDay(day, c.at)
    case LastHour(key, now) =>
      c.key == key && exists minute :: IsMinute(minute, now) && (minute - 59) * 60_000 <= c.at < (minute + 1) * 60_000
    case TodayOf(source, now) => c.key.source == source && exists day :: IsDay(day, now) && IsDay(day, c.at)
  }

  /** What may be asked of a call. */
  datatype Test = Made | Failed | EndedWith(outcome: CallOutcome) | Below(ms: real) | UpTo(ms: real)

  function MsOf(c: Call): real {
    if c.ms < 0.0 then 0.0 else c.ms
  }

  predicate Passes(c: Call, test: Test) {
    match test
    case Made => true
    case Failed => c.outcome != Success
    case EndedWith(outcome) => c.outcome == outcome
    case Below(ms) => MsOf(c) < ms
    case UpTo(ms) => MsOf(c) <= ms
  }

  /** How many of the calls meant pass the test. */
  ghost function CountOf(log: seq<Call>, which: Which, test: Test): nat {
    if log == [] then 0
    else
      var last := log[|log| - 1];
      CountOf(log[..|log| - 1], which, test) + if Meant(which, last) && Passes(last, test) then 1 else 0
  }

  // ---- the numbers of a window -------------------------------------------------------------------

  /** A duration such that fewer than the share `q` of the calls took less, and at least that share took no longer. */
  ghost predicate IsQuantile(log: seq<Call>, which: Which, q: real, s: real) {
    && (exists c :: c in log && Meant(which, c) && MsOf(c) == s)
    && CountOf(log, which, Below(s)) as real < q * CountOf(log, which, Made) as real
       <= CountOf(log, which, UpTo(s)) as real
  }

  /** The number shown for a duration: to the millisecond no less, and less than 9.06 % more. */
  predicate Shows(shown: Option<int>, s: real) {
    && shown.Some? && s - 0.5 < shown.value as real
    && (s < 1.0 ==> shown.value <= 1)
    && (1.0 <= s < 131072.0 ==> shown.value as real <= 1.0906 * s + 0.5)
  }

  /** What a window says of the calls meant. */
  ghost predicate Tells(w: Window, log: seq<Call>, which: Which) {
    && w.calls == CountOf(log, which, Made) && w.failures == CountOf(log, which, Failed)
    && (forall o :: o in w.outcomes <==> CountOf(log, which, EndedWith(o)) > 0)
    && (forall o :: o in w.outcomes ==> w.outcomes[o] == CountOf(log, which, EndedWith(o)))
    && (w.calls == 0 ==> w.p50.None? && w.p95.None?)
    && (forall s :: IsQuantile(log, which, 0.5, s) ==> Shows(w.p50, s))
    && (forall s :: IsQuantile(log, which, 0.95, s) ==> Shows(w.p95, s))
  }

  // ---- the selected calls are the ones meant -----------------------------------------------------

  ghost predicate Selects(p: Call -> bool, which: Which) {
    forall c :: p(c) <==> Meant(which, c)
  }

  lemma {:induction false} SelectedCounts(log: seq<Call>, p: Call -> bool, which: Which)
    requires Selects(p, which)
    ensures |Select(log, p)| == CountOf(log, which, Made)
    ensures |Select(log, p)| - CountOutcome(Select(log, p), Success) == CountOf(log, which, Failed)
    ensures forall o :: CountOutcome(Select(log, p), o) == CountOf(log, which, EndedWith(o))
  {
    if log != [] {
      var front, last := log[..|log| - 1], log[|log| - 1];
      SelectedCounts(front, p, which);
      hide Meant;
      var rest := Select(front, p);
      if p(last) {
        assert Select(log, p) == rest + [last];
        assert (rest + [last])[..|rest|] == rest;
      } else {
        assert Select(log, p) == rest;
      }
    }
  }

  lemma {:induction false} SelectedTimes(log: seq<Call>, p: Call -> bool, which: Which, s: real)
    requires Selects(p, which)
    ensures CountBelow(Durations(Select(log, p)), s) == CountOf(log, which, Below(s))
    ensures CountUpTo(Durations(Select(log, p)), s) == CountOf(log, which, UpTo(s))
  {
    if log != [] {
      var front, last := log[..|log| - 1], log[|log| - 1];
      SelectedTimes(front, p, which, s);
      hide Meant;
      var rest := Select(front, p);
      if p(last) {
        assert Select(log, p) == rest + [last];
        assert Durations(rest + [last]) == Durations(rest) + [last.ms];
        assert (Durations(rest) + [last.ms])[..|rest|] == Durations(rest);
      } else {
        assert Select(log, p) == rest;
      }
    }
  }

  lemma {:induction false} SelectedAt(log: seq<Call>, p: Call -> bool, c: Call) returns (i: nat)
    requires c in log && p(c)
    ensures i < |Select(log, p)| && Select(log, p)[i] == c
  {
    var front, last := log[..|log| - 1], log[|log| - 1];
    if c == last {
      i := |Select(front, p)|;
    } else {
      assert log == front + [last];
      i := SelectedAt(front, p, c);
    }
  }

  // ---- percentiles -------------------------------------------------------------------------------

  lemma RankOfQuantile(q: real, n: nat, below: nat, upTo: nat)
    requires 0.0 < q <= 1.0 && below <= upTo <= n && below as real < q * n as real <= upTo as real
    ensures below < Rank(q, n) <= upTo
  {
    var x := q * n as real;
    assert 0.0 < x <= n as real;
  }

  lemma RoundedIsNear(x: real)
    ensures x - 0.5 < Rounded(x) as real <= x + 0.5
  {
  }

  lemma QuantileShown(g: real, log: seq<Call>, p: Call -> bool, which: Which, q: real, s: real)
    requires EighthRootOfTwo(g) && Selects(p, which) && 0.0 < q <= 1.0 && IsQuantile(log, which, q, s)
    ensures Shows(PercentileMs(EighthEdges(g), HistOf(EighthEdges(g), Durations(Select(log, p))), q), s)
  {
    hide Meant, PercentileMs, HistOf, EighthEdges, EighthRootOfTwo, Select, CountOf, CountBelow, CountUpTo;
    var calls := Select(log, p);
    var xs := Durations(calls);
    SelectedCounts(log, p, which);
    SelectedTimes(log, p, which, s);
    var c :| c in log && Meant(which, c) && MsOf(c) == s;
    var i := SelectedAt(log, p, c);
    assert AtLeastZero(xs[i]) == s;
    UpToWithin(xs, s);
    RankOfQuantile(q, |xs|, CountBelow(xs, s), CountUpTo(xs, s));
    PercentileWithinNinePercent(g, xs, q, s);
    RoundedIsNear(s);
    RoundedIsNear(1.0906 * s);
    hide Rounded;
  }

  lemma {:induction false} UpToWithin(xs: seq<real>, s: real)
    ensures CountBelow(xs, s) <= CountUpTo(xs, s) <= |xs|
  {
    if xs != [] {
      UpToWithin(xs[..|xs| - 1], s);
    }
  }

  // ---- windows -----------------------------------------------------------------------------------

  /** With the edges in use, the window over the calls selected tells of the calls meant. */
  lemma WindowTells(g: real, log: seq<Call>, p: Call -> bool, which: Which)
    requires EighthRootOfTwo(g) && Selects(p, which)
    ensures Tells(WindowOf(EighthEdges(g), BucketOf(EighthEdges(g), Select(log, p))), log, which)
  {
    hide Meant, PercentileMs, HistOf, EighthEdges, EighthRootOfTwo, Select, CountOf, IsQuantile, Shows, WindowOf, BucketOf;
    var edges, calls := EighthEdges(g), Select(log, p);
    WindowMeans(edges, calls);
    SelectedCounts(log, p, which);
    forall s | IsQuantile(log, which, 0.5, s) ensures Shows(PercentileMs(edges, HistOf(edges, Durations(calls)), 0.5), s) {
      QuantileShown(g, log, p, which, 0.5, s);
    }
    forall s | IsQuantile(log, which, 0.95, s) ensures Shows(PercentileMs(edges, HistOf(edges, Durations(calls)), 0.95), s) {
      QuantileShown(g, log, p, which, 0.95, s);
    }
    if calls == [] {
      NothingShown(edges, Durations(calls));
    }
  }

  lemma NothingShown(edges: seq<real>, xs: seq<real>)
    requires xs == []
    ensures forall q :: PercentileMs(edges, HistOf(edges, xs), q).None?
  {
  }

  lemma DaysAre(at: Time)
    ensures IsDay(KstDate(at), at) && forall day :: IsDay(day, at) ==> day == KstDate(at)
  {
  }

  lemma MinutesAre(at: Time)
    ensures IsMinute(MinuteOf(at), at) && forall minute :: IsMinute(minute, at) ==> minute == MinuteOf(at)
  {
  }

  lemma TodaySelects(k: Key, now: Time)
    ensures Selects(OnDay(k, KstDate(now)), Today(k, now))
  {
    DaysAre(now);
    forall c: Call ensures OnDay(k, KstDate(now))(c) <==> Meant(Today(k, now), c) {
      DaysAre(c.at);
      hide KstDate, IsDay;
    }
  }

  lemma SourceSelects(source: Source, now: Time)
    ensures Selects(OfSource(source, KstDate(now)), Which.TodayOf(source, now))
  {
    DaysAre(now);
    forall c: Call ensures OfSource(source, KstDate(now))(c) <==> Meant(Which.TodayOf(source, now), c) {
      DaysAre(c.at);
      hide KstDate, IsDay;
    }
  }

  lemma HourSelects(k: Key, now: Time)
    ensures Selects(InMinutes(k, MinuteOf(now) - HOUR_MINUTES + 1, MinuteOf(now) + 1), LastHour(k, now))
  {
    var m := MinuteOf(now);
    MinutesAre(now);
    forall c: Call ensures InMinutes(k, m - HOUR_MINUTES + 1, m + 1)(c) <==> Meant(LastHour(k, now), c) {
      assert m - 59 <= MinuteOf(c.at) < m + 1 <==> (m - 59) * 60_000 <= c.at < (m + 1) * 60_000;
    }
  }

  // ---- what is shown -----------------------------------------------------------------------------

  /** Each line of a snapshot tells of its key's calls today and of those in the last 60 minutes. */
  lemma LineTells(g: real, log: seq<Call>, k: Key, now: Time)
    requires EighthRootOfTwo(g)
    ensures var line := LogStats(EighthEdges(g), log, k, now);
            line.key == k && Tells(line.today, log, Today(k, now)) && Tells(line.lastHour, log, LastHour(k, now))
  {
    hide Meant, EighthEdges, EighthRootOfTwo, WindowOf, BucketOf, Tells, Selects, KstDate, MinuteOf;
    TodaySelects(k, now);
    HourSelects(k, now);
    WindowTells(g, log, OnDay(k, KstDate(now)), Today(k, now));
    WindowTells(g, log, InMinutes(k, MinuteOf(now) - HOUR_MINUTES + 1, MinuteOf(now) + 1), LastHour(k, now));
  }

  /** The number of today's calls of a source. */
  lemma TodayCallsTell(log: seq<Call>, source: Source, now: Time)
    ensures |Select(log, OfSource(source, KstDate(now)))| == CountOf(log, Which.TodayOf(source, now), Made)
  {
    hide Meant, KstDate;
    SourceSelects(source, now);
    SelectedCounts(log, OfSource(source, KstDate(now)), Which.TodayOf(source, now));
  }
}
