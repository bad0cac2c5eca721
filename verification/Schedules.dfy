/** The preview of a timetable file (csv.ts): how many departures each group of rows will have. */
module Schedules {
  import opened Basics
  import opened LocalTimes
  import opened Sorting

  /** The server replaces all departures of one of these at a time. */
  datatype Key = Key(line: string, stop: string, dayType: string, direction: string)

  datatype ScheduleRow = ScheduleRow(key: Key, time: string)

  datatype Group = Group(rows: nat, duplicates: nat, first: string, last: string, times: set<string>)

  function OfKey(k: Key): ScheduleRow -> bool {
    (r: ScheduleRow) => r.key == k
  }

  function TimesOf(rows: seq<ScheduleRow>): set<string> {
    set r | r in rows :: r.time
  }

  predicate Before(a: string, b: string) {
    Lex(Sortable(a), Sortable(b))
  }

  /** The group says what its rows say: how many, how many of them repeat a time, which times, the first and the last. */
  ghost predicate Describes(g: Group, rows: seq<ScheduleRow>) {
    && g.rows == |rows| && g.times == TimesOf(rows) && g.duplicates == |rows| - |g.times|
    && g.first in g.times && g.last in g.times
    && forall t :: t in g.times ==> !Before(t, g.first) && !Before(g.last, t)
  }

  // ---- one row -----------------------------------------------------------------------------------

  function NewGroup(r: ScheduleRow): Group {
    Group(0, 0, r.time, r.time, {})
  }

  function AddRow(g: Group, r: ScheduleRow): Group {
    Group(g.rows + 1,
          if r.time in g.times then g.duplicates + 1 else g.duplicates,
          if Before(r.time, g.first) then r.time else g.first,
          if Before(g.last, r.time) then r.time else g.last,
          g.times + {r.time})
  }

  lemma {:induction false} LexTransitive(a: string, b: string, c: string)
    requires Lex(a, b) && Lex(b, c)
    ensures Lex(a, c)
  {
    if a != "" && a[0] == b[0] == c[0] {
      LexTransitive(a[1..], b[1..], c[1..]);
    }
  }

  lemma BeforeIsOrder(a: string, b: string, c: string)
    ensures !Before(a, a)
    ensures Before(a, b) ==> !Before(b, a)
    ensures Before(a, b) && Before(b, c) ==> Before(a, c)
  {
    LexIsOrder(Sortable(a), Sortable(b));
    LexIsOrder(Sortable(a), Sortable(a));
    if Before(a, b) && Before(b, c) {
      LexTransitive(Sortable(a), Sortable(b), Sortable(c));
    }
  }

  lemma TimesNext(rows: seq<ScheduleRow>, r: ScheduleRow)
    ensures TimesOf(rows + [r]) == TimesOf(rows) + {r.time}
  {
    forall t ensures t in TimesOf(rows + [r]) <==> t in TimesOf(rows) + {r.time} {
      if t in TimesOf(rows) {
        var o :| o in rows && o.time == t;
        assert o in rows + [r];
      }
      assert r in rows + [r];
    }
  }

  lemma FirstRow(r: ScheduleRow)
    ensures Describes(AddRow(NewGroup(r), r), [r])
  {
    BeforeIsOrder(r.time, r.time, r.time);
    assert r in [r];
    assert TimesOf([r]) == {r.time};
    assert AddRow(NewGroup(r), r).times == {r.time};
    hide Before;
  }

  lemma NextRow(g: Group, rows: seq<ScheduleRow>, r: ScheduleRow)
    requires Describes(g, rows)
    ensures Describes(AddRow(g, r), rows + [r])
  {
    hide Before, TimesOf;
    TimesNext(rows, r);
    var g' := AddRow(g, r);
    assert |g'.times| == if r.time in g.times then |g.times| else |g.times| + 1 by {
      if r.time in g.times {
        assert g'.times == g.times;
      }
    }
    forall t | t in g'.times ensures !Before(t, g'.first) && !Before(g'.last, t) {
      BeforeIsOrder(t, r.time, g.first);
      BeforeIsOrder(g.last, r.time, t);
      BeforeIsOrder(r.time, r.time, r.time);
    }
  }

  // ---- the file ----------------------------------------------------------------------------------

  lemma {:induction false} FilterNext<T(!new)>(xs: seq<T>, x: T, p: T -> bool)
    ensures Filter(xs + [x], p) == Filter(xs, p) + if p(x) then [x] else []
  {
    if xs == [] {
      assert [] + [x] == [x] && [x][1..] == [];
    } else {
      FilterNext(xs[1..], x, p);
      assert (xs + [x])[1..] == xs[1..] + [x];
    }
  }

  /** The file names `k` before it first names `l`. */
  predicate NamedBefore(rows: seq<ScheduleRow>, k: Key, l: Key) {
    exists i :: 0 <= i < |rows| && rows[i].key == k && forall j :: 0 <= j <= i ==> rows[j].key != l
  }

  ghost predicate InFileOrder(order: seq<Key>, rows: seq<ScheduleRow>) {
    forall i, j :: 0 <= i < j < |order| ==> NamedBefore(rows, order[i], order[j])
  }

  lemma FileOrderNext(order: seq<Key>, rows: seq<ScheduleRow>, r: ScheduleRow)
    requires InFileOrder(order, rows)
    requires forall k :: k in order <==> exists o :: o in rows && o.key == k
    ensures InFileOrder(if r.key in order then order else order + [r.key], rows + [r])
  {
    hide NamedBefore;
    var order' := if r.key in order then order else order + [r.key];
    forall i, j | 0 <= i < j < |order'| ensures NamedBefore(rows + [r], order'[i], order'[j]) {
      assert order'[i] in order;
      NamedStill(rows, r, order'[i], order'[j]);
    }
  }

  lemma NamedStill(rows: seq<ScheduleRow>, r: ScheduleRow, k: Key, l: Key)
    requires exists o :: o in rows && o.key == k
    requires NamedBefore(rows, k, l) || forall o :: o in rows ==> o.key != l
    ensures NamedBefore(rows + [r], k, l)
  {
    var all := rows + [r];
    var i :| 0 <= i < |rows| && rows[i].key == k && (NamedBefore(rows, k, l) ==> forall j :: 0 <= j <= i ==> rows[j].key != l);
    assert all[i].key == k;
    assert forall j :: 0 <= j <= i ==> all[j] == rows[j] && rows[j] in rows;
  }

  /** There is a group for exactly the keys of the rows, listed once and in the order in which the file first names them,
      and it describes the rows of its key. */
  ghost predicate Summarizes(order: seq<Key>, groups: map<Key, Group>, rows: seq<ScheduleRow>) {
    && InFileOrder(order, rows)
    && (forall k :: k in groups ==> exists r :: r in rows && r.key == k)
    && NoRepeats(order) && (forall k :: k in groups <==> k in order)
    && (forall r :: r in rows ==> r.key in groups)
    && forall k :: k in groups ==> Describes(groups[k], Filter(rows, OfKey(k)))
  }

  /** The group of a key after one more row. */
  lemma GroupNext(groups: map<Key, Group>, rows: seq<ScheduleRow>, r: ScheduleRow, k: Key)
    requires k in groups ==> Describes(groups[k], Filter(rows, OfKey(k)))
    requires k == r.key && k !in groups ==> forall o :: o in rows ==> o.key != k
    requires k in groups || k == r.key
    ensures var g := if k != r.key then groups[k] else AddRow(if k in groups then groups[k] else NewGroup(r), r);
            Describes(g, Filter(rows + [r], OfKey(k)))
  {
    hide Describes, AddRow, NewGroup;
    FilterNext(rows, r, OfKey(k));
    if k != r.key {
      assert Filter(rows, OfKey(k)) + [] == Filter(rows, OfKey(k));
    } else if k in groups {
      NextRow(groups[k], Filter(rows, OfKey(k)), r);
    } else {
      NothingOf(rows, k);
      assert [] + [r] == [r];
      FirstRow(r);
    }
  }

  lemma SummarizesNext(order: seq<Key>, groups: map<Key, Group>, rows: seq<ScheduleRow>, r: ScheduleRow)
    requires Summarizes(order, groups, rows)
    ensures var g := AddRow(if r.key in groups then groups[r.key] else NewGroup(r), r);
            Summarizes(if r.key in groups then order else order + [r.key], groups[r.key := g], rows + [r])
  {
    hide Describes, AddRow, NewGroup, NoRepeats, InFileOrder, Filter;
    NamedKeys(order, groups, rows, r);
    var g := AddRow(if r.key in groups then groups[r.key] else NewGroup(r), r);
    var groups' := groups[r.key := g];
    forall k | k in groups' ensures Describes(groups'[k], Filter(rows + [r], OfKey(k))) {
      GroupNext(groups, rows, r, k);
    }
    OneMore(order, r.key);
  }

  lemma NamedKeys(order: seq<Key>, groups: map<Key, Group>, rows: seq<ScheduleRow>, r: ScheduleRow)
    requires Summarizes(order, groups, rows)
    ensures InFileOrder(if r.key in groups then order else order + [r.key], rows + [r])
    ensures forall k :: k in groups || k == r.key ==> exists o :: o in rows + [r] && o.key == k
  {
    hide Describes, InFileOrder, NoRepeats, Filter;
    FileOrderNext(order, rows, r);
    assert r in rows + [r];
    forall k | k in groups ensures exists o :: o in rows + [r] && o.key == k {
      var o :| o in rows && o.key == k;
      assert o in rows + [r];
    }
  }

  lemma {:induction false} NothingOf(rows: seq<ScheduleRow>, k: Key)
    requires forall r :: r in rows ==> r.key != k
    ensures Filter(rows, OfKey(k)) == []
  {
    if rows != [] {
      assert rows[0] in rows;
      assert forall r :: r in rows[1..] ==> r in rows;
      NothingOf(rows[1..], k);
    }
  }

  lemma OneMore(order: seq<Key>, k: Key)
    requires NoRepeats(order)
    ensures k !in order ==> NoRepeats(order + [k])
  {
  }

  /** The groups, in the order in which the file first names them. */
  method GroupRows(rows: seq<ScheduleRow>) returns (order: seq<Key>, groups: map<Key, Group>)
    ensures Summarizes(order, groups, rows)
  {
    hide Summarizes, AddRow, NewGroup;
    order, groups := [], map[];
    SummarizesNothing();
    for i := 0 to |rows|
      invariant Summarizes(order, groups, rows[..i])
    {
      var r := rows[i];
      SummarizesNext(order, groups, rows[..i], r);
      assert rows[..i + 1] == rows[..i] + [r];
      var g := if r.key in groups then groups[r.key] else NewGroup(r);
      if r.key !in groups {
        order := order + [r.key];
      }
      groups := groups[r.key := AddRow(g, r)];
    }
    assert rows[..|rows|] == rows;
  }

  lemma SummarizesNothing()
    ensures Summarizes([], map[], [])
  {
  }

  // ---- totals ------------------------------------------------------------------------------------

  function RowsOf(order: seq<Key>, rows: seq<ScheduleRow>, n: nat): nat
    requires n <= |order|
  {
    if n == 0 then 0 else RowsOf(order, rows, n - 1) + |Filter(rows, OfKey(order[n - 1]))|
  }

  lemma {:induction false} OneRowMore(order: seq<Key>, rows: seq<ScheduleRow>, r: ScheduleRow, n: nat)
    requires n <= |order| && NoRepeats(order)
    ensures RowsOf(order, rows + [r], n) == RowsOf(order, rows, n) + if r.key in order[..n] then 1 else 0
  {
    if n > 0 {
      OneRowMore(order, rows, r, n - 1);
      FilterNext(rows, r, OfKey(order[n - 1]));
      OneKeyMore(order, n - 1);
      hide Filter, NoRepeats;
    }
  }

  lemma OneKeyMore(order: seq<Key>, i: nat)
    requires i < |order| && NoRepeats(order)
    ensures order[i] !in order[..i]
    ensures forall k :: k in order[..i + 1] <==> k in order[..i] || k == order[i]
  {
    assert order[..i + 1] == order[..i] + [order[i]];
  }

  lemma {:induction false} NoRows(order: seq<Key>, n: nat)
    requires n <= |order|
    ensures RowsOf(order, [], n) == 0
  {
    if n > 0 {
      NoRows(order, n - 1);
    }
  }

  /** Every row is in one group. */
  lemma {:induction false} GroupsHoldAll(order: seq<Key>, rows: seq<ScheduleRow>)
    requires NoRepeats(order) && forall r :: r in rows ==> r.key in order
    ensures RowsOf(order, rows, |order|) == |rows|
    decreases |rows|
  {
    if rows == [] {
      NoRows(order, |order|);
    } else {
      var front, r := rows[..|rows| - 1], rows[|rows| - 1];
      assert rows == front + [r];
      GroupsHoldAll(order, front);
      OneRowMore(order, front, r, |order|);
      assert order[..|order|] == order;
      assert r in rows;
    }
  }

  /** What the file asks for: each departure once. */
  function Departures(rows: seq<ScheduleRow>): set<(Key, string)> {
    set r | r in rows :: (r.key, r.time)
  }

  function DeparturesOf(order: seq<Key>, rows: seq<ScheduleRow>): set<(Key, string)> {
    set r | r in rows && r.key in order :: (r.key, r.time)
  }

  /** One more group adds its times. */
  lemma DeparturesNext(order: seq<Key>, rows: seq<ScheduleRow>, i: nat)
    requires i < |order| && NoRepeats(order)
    ensures |DeparturesOf(order[..i + 1], rows)|
            == |DeparturesOf(order[..i], rows)| + |TimesOf(Filter(rows, OfKey(order[i])))|
  {
    var k := order[i];
    var before, after := DeparturesOf(order[..i], rows), DeparturesOf(order[..i + 1], rows);
    var times := TimesOf(Filter(rows, OfKey(k)));
    OneKeyMore(order, i);
    var own := Paired(k, times);
    forall d ensures d in after <==> d in before || d in own {
      if d in after {
        var r :| r in rows && r.key in order[..i + 1] && (r.key, r.time) == d;
        if r.key == k {
          assert r in Filter(rows, OfKey(k));
        } else {
          assert d in before;
        }
      }
      if d in own {
        var r :| r in Filter(rows, OfKey(k)) && r.time == d.1;
      }
    }
    assert after == before + own && before !! own;
  }

  function Paired(k: Key, times: set<string>): (pairs: set<(Key, string)>)
    ensures |pairs| == |times| && forall d :: d in pairs <==> d.0 == k && d.1 in times
  {
    PairedSize(k, times);
    set t | t in times :: (k, t)
  }

  lemma {:induction false} PairedSize(k: Key, times: set<string>)
    ensures |set t | t in times :: (k, t)| == |times|
  {
    if t :| t in times {
      PairedSize(k, times - {t});
      assert (set x | x in times :: (k, x)) == (set x | x in times - {t} :: (k, x)) + {(k, t)};
    } else {
      assert times == {};
      assert (set x | x in times :: (k, x)) == {};
    }
  }

  /** The numbers of the preview. The departures are the different times of each key, and every other row is a duplicate. */
  method Summarize(rows: seq<ScheduleRow>)
      returns (departures: nat, duplicates: nat, order: seq<Key>, groups: map<Key, Group>)
    ensures Summarizes(order, groups, rows)
    ensures departures == |Departures(rows)| && departures + duplicates == |rows|
  {
    hide Describes, Departures, DeparturesOf, TimesOf, Filter, NoRepeats, InFileOrder;
    order, groups := GroupRows(rows);
    departures, duplicates := 0, 0;
    NoDepartures(rows);
    for i := 0 to |order|
      invariant departures + duplicates == RowsOf(order, rows, i)
      invariant departures == |DeparturesOf(order[..i], rows)|
    {
      var g := groups[order[i]];
      AllCounted(g, Filter(rows, OfKey(order[i])));
      DeparturesNext(order, rows, i);
      departures, duplicates := departures + |g.times|, duplicates + g.duplicates;
    }
    GroupsHoldAll(order, rows);
    assert order[..|order|] == order;
    AllDepartures(order, rows);
  }

  lemma NoDepartures(rows: seq<ScheduleRow>)
    ensures forall order :: |order| == 0 ==> DeparturesOf(order, rows) == {}
  {
  }

  lemma AllDepartures(order: seq<Key>, rows: seq<ScheduleRow>)
    requires forall r :: r in rows ==> r.key in order
    ensures DeparturesOf(order, rows) == Departures(rows)
  {
  }

  lemma AllCounted(g: Group, rows: seq<ScheduleRow>)
    requires Describes(g, rows)
    ensures |g.times| + g.duplicates == |rows| && g.times == TimesOf(rows)
  {
  }

  // ---- with canonical times ----------------------------------------------------------------------

  predicate IsCanonical(time: string) {
    ParseLocalTime(time) == Some(time)
  }

  lemma CanonicalParses(time: string)
    requires IsCanonical(time)
    ensures Parse(time).Some? && Parse(time).value.Valid() && Format(Parse(time).value) == time
  {
    ParsedIsValid(time);
    hide Parse, Format;
  }

  lemma BeforeIsEarlier(a: string, b: string)
    requires IsCanonical(a) && IsCanonical(b)
    ensures Parse(a).Some? && Parse(b).Some?
    ensures Before(a, b) <==> Parse(a).value.Nanos() < Parse(b).value.Nanos()
    ensures a == b <==> Parse(a).value.Nanos() == Parse(b).value.Nanos()
  {
    CanonicalParses(a);
    CanonicalParses(b);
    TextOrderIsTimeOrder(Parse(a).value, Parse(b).value);
    CanonicalIsInstant(a, b);
    hide Parse, Format, Lex, Sortable;
  }

  /** In a file of canonical times the first and the last of a group are its earliest and latest moments, and two rows count
      once exactly when they are of the same moment. */
  lemma GroupIsTrue(g: Group, rows: seq<ScheduleRow>)
    requires Describes(g, rows) && forall r :: r in rows ==> IsCanonical(r.time)
    ensures IsCanonical(g.first) && IsCanonical(g.last) && Parse(g.first).Some? && Parse(g.last).Some?
    ensures forall r :: r in rows ==>
              && r.time in g.times && Parse(r.time).Some?
              && Parse(g.first).value.Nanos() <= Parse(r.time).value.Nanos() <= Parse(g.last).value.Nanos()
    ensures forall r, o :: r in rows && o in rows && Parse(r.time).Some? && Parse(o.time).Some? ==>
              (r.time == o.time <==> Parse(r.time).value.Nanos() == Parse(o.time).value.Nanos())
  {
    hide Parse, IsCanonical, Before;
    hide LocalTime.Nanos;
    var f :| f in rows && f.time == g.first;
    var l :| l in rows && l.time == g.last;
    BeforeIsEarlier(f.time, l.time);
    forall r | r in rows
      ensures r.time in g.times && Parse(r.time).Some?
      ensures Parse(g.first).value.Nanos() <= Parse(r.time).value.Nanos() <= Parse(g.last).value.Nanos() {
      BeforeIsEarlier(r.time, g.first);
      BeforeIsEarlier(g.last, r.time);
    }
    forall r, o | r in rows && o in rows && Parse(r.time).Some? && Parse(o.time).Some?
      ensures r.time == o.time <==> Parse(r.time).value.Nanos() == Parse(o.time).value.Nanos() {
      BeforeIsEarlier(r.time, o.time);
    }
  }
}
