/** Stable sorting and filtering of sequences, as the standard libraries of the sources do them. */
module Sorting {
  function Insert<T>(x: T, rest: seq<T>, le: (T, T) -> bool): (s: seq<T>)
    ensures |s| == |rest| + 1 && multiset(s) == multiset([x]) + multiset(rest)
  {
    if rest == [] || le(x, rest[0]) then [x] + rest
    else
      assert rest == [rest[0]] + rest[1..];
      [rest[0]] + Insert(x, rest[1..], le)
  }

  /** Elements of equal rank keep their order. */
  function StableSort<T>(xs: seq<T>, le: (T, T) -> bool): (s: seq<T>)
    ensures |s| == |xs| && multiset(s) == multiset(xs)
  {
    if xs == [] then []
    else
      assert xs == [xs[0]] + xs[1..];
      Insert(xs[0], StableSort(xs[1..], le), le)
  }

  function Filter<T(!new)>(xs: seq<T>, p: T -> bool): (s: seq<T>)
    ensures forall x :: x in s <==> x in xs && p(x)
  {
    if xs == [] then []
    else
      assert xs == [xs[0]] + xs[1..];
      if p(xs[0]) then [xs[0]] + Filter(xs[1..], p) else Filter(xs[1..], p)
  }

  ghost predicate Orders<T(!new)>(le: (T, T) -> bool) {
    (forall x, y :: le(x, y) || le(y, x)) && forall x, y, z :: le(x, y) && le(y, z) ==> le(x, z)
  }

  predicate Sorted<T>(xs: seq<T>, le: (T, T) -> bool) {
    forall i, j :: 0 <= i < j < |xs| ==> le(xs[i], xs[j])
  }

  predicate NoRepeats<T(==)>(xs: seq<T>) {
    forall i, j :: 0 <= i < j < |xs| ==> xs[i] != xs[j]
  }

  lemma {:induction false} InsertSorts<T(!new)>(x: T, rest: seq<T>, le: (T, T) -> bool)
    requires Orders(le) && Sorted(rest, le)
    ensures Sorted(Insert(x, rest, le), le)
    ensures forall y :: y in Insert(x, rest, le) <==> y == x || y in rest
  {
    var s := Insert(x, rest, le);
    if rest != [] && !le(x, rest[0]) {
      InsertSorts(x, rest[1..], le);
      var tail := Insert(x, rest[1..], le);
      assert s == [rest[0]] + tail;
      forall j | 0 <= j < |tail| ensures le(rest[0], tail[j]) {
        assert tail[j] in tail;
        if tail[j] != x {
          var k :| 0 <= k < |rest[1..]| && rest[1..][k] == tail[j];
        }
      }
      assert forall y :: y in rest <==> y == rest[0] || y in rest[1..];
    }
  }

  lemma {:induction false} SortSorts<T(!new)>(xs: seq<T>, le: (T, T) -> bool)
    requires Orders(le)
    ensures Sorted(StableSort(xs, le), le)
    ensures forall y :: y in StableSort(xs, le) <==> y in xs
  {
    if xs != [] {
      SortSorts(xs[1..], le);
      InsertSorts(xs[0], StableSort(xs[1..], le), le);
      assert forall y :: y in xs <==> y == xs[0] || y in xs[1..];
    }
  }

  lemma {:induction false} SortedStays<T>(xs: seq<T>, le: (T, T) -> bool)
    requires Sorted(xs, le)
    ensures StableSort(xs, le) == xs
  {
    if xs != [] {
      SortedStays(xs[1..], le);
      assert xs == [xs[0]] + xs[1..];
      if |xs| > 1 {
        assert le(xs[0], xs[1]);
      }
    }
  }

  lemma {:induction false} FilterKeepsOrder<T(!new)>(xs: seq<T>, p: T -> bool, le: (T, T) -> bool)
    requires Sorted(xs, le)
    ensures Sorted(Filter(xs, p), le)
  {
    if xs != [] {
      FilterKeepsOrder(xs[1..], p, le);
      var rest := Filter(xs[1..], p);
      forall j | 0 <= j < |rest| ensures le(xs[0], rest[j]) {
        assert rest[j] in rest;
        var k :| 0 <= k < |xs[1..]| && xs[1..][k] == rest[j];
        assert le(xs[0], xs[k + 1]);
      }
    }
  }

  lemma {:induction false} FilterAll<T(!new)>(xs: seq<T>, p: T -> bool)
    requires forall i :: 0 <= i < |xs| ==> p(xs[i])
    ensures Filter(xs, p) == xs
  {
    if xs != [] {
      FilterAll(xs[1..], p);
      assert xs == [xs[0]] + xs[1..];
    }
  }

  lemma {:induction false} FilterNoRepeats<T(!new)>(xs: seq<T>, p: T -> bool)
    requires NoRepeats(xs)
    ensures NoRepeats(Filter(xs, p))
  {
    if xs != [] {
      FilterNoRepeats(xs[1..], p);
      var rest := Filter(xs[1..], p);
      forall j | 0 <= j < |rest| ensures rest[j] != xs[0] {
        assert rest[j] in rest;
        var k :| 0 <= k < |xs[1..]| && xs[1..][k] == rest[j];
        assert xs[0] != xs[k + 1];
      }
    }
  }

  lemma RepeatsInMultiset<T(!new)>(xs: seq<T>)
    ensures NoRepeats(xs) <==> forall x :: x in xs ==> multiset(xs)[x] == 1
  {
    if NoRepeats(xs) {
      forall x | x in xs ensures multiset(xs)[x] == 1 {
        OnceOnly(xs, x);
      }
    } else {
      var i, j :| 0 <= i < j < |xs| && xs[i] == xs[j];
      assert xs == xs[..j] + xs[j..];
      assert xs[i] in xs[..j] && xs[j] in xs[j..];
      assert xs[..j][i] == xs[i] && xs[j..][0] == xs[j];
      assert multiset(xs)[xs[i]] == multiset(xs[..j])[xs[i]] + multiset(xs[j..])[xs[i]];
    }
  }

  lemma {:induction false} OnceOnly<T>(xs: seq<T>, x: T)
    requires NoRepeats(xs) && x in xs
    ensures multiset(xs)[x] == 1
  {
    assert xs == [xs[0]] + xs[1..];
    if x == xs[0] {
      assert x !in xs[1..];
    } else {
      assert x in xs[1..];
      OnceOnly(xs[1..], x);
    }
  }

  lemma SortNoRepeats<T(!new)>(xs: seq<T>, le: (T, T) -> bool)
    requires NoRepeats(xs)
    ensures NoRepeats(StableSort(xs, le))
  {
    RepeatsInMultiset(xs);
    RepeatsInMultiset(StableSort(xs, le));
    forall x | x in StableSort(xs, le) ensures multiset(StableSort(xs, le))[x] == 1 {
      assert x in multiset(xs);
    }
  }

  lemma {:induction false} FilterConcat<T(!new)>(a: seq<T>, b: seq<T>, p: T -> bool)
    ensures Filter(a + b, p) == Filter(a, p) + Filter(b, p)
  {
    if a == [] {
      assert a + b == b;
    } else {
      FilterConcat(a[1..], b, p);
      assert (a + b)[1..] == a[1..] + b;
    }
  }

  /** An element goes behind those of smaller rank only. */
  lemma {:induction false} InsertAt<T(!new)>(x: T, rest: seq<T>, le: (T, T) -> bool) returns (n: nat)
    ensures n <= |rest| && Insert(x, rest, le) == rest[..n] + [x] + rest[n..]
    ensures forall j :: 0 <= j < n ==> !le(x, rest[j])
  {
    if rest == [] || le(x, rest[0]) {
      n := 0;
    } else {
      var k := InsertAt(x, rest[1..], le);
      n := k + 1;
      assert rest[..n] == [rest[0]] + rest[1..][..k] && rest[n..] == rest[1..][k..];
    }
  }

  /** The element at `i` has the least rank, and is the first to have it. */
  predicate FirstLeast<T>(xs: seq<T>, le: (T, T) -> bool, i: nat) {
    && i < |xs| && (forall j :: 0 <= j < |xs| ==> le(xs[i], xs[j]))
    && forall j :: 0 <= j < i ==> !le(xs[j], xs[i])
  }

  /** Sorting puts that one in front. */
  lemma {:induction false} FrontIsFirstLeast<T(!new)>(xs: seq<T>, le: (T, T) -> bool) returns (i: nat)
    requires xs != [] && Orders(le)
    ensures FirstLeast(xs, le, i) && StableSort(xs, le)[0] == xs[i]
  {
    if |xs| == 1 {
      i := 0;
    } else {
      hide *;
      var rest := xs[1..];
      var k := FrontIsFirstLeast(rest, le);
      FrontOf(xs, le);
      LeastOf(xs, le, k);
      i := if le(xs[0], rest[k]) then 0 else k + 1;
    }
  }

  lemma FirstLeastInFront<T(!new)>(xs: seq<T>, le: (T, T) -> bool, i: nat)
    requires Orders(le) && FirstLeast(xs, le, i)
    ensures StableSort(xs, le)[0] == xs[i]
  {
    var k := FrontIsFirstLeast(xs, le);
    assert !(k < i) && !(i < k);
  }

  lemma FrontOf<T>(xs: seq<T>, le: (T, T) -> bool)
    requires |xs| > 1
    ensures var front := StableSort(xs[1..], le)[0];
            StableSort(xs, le)[0] == if le(xs[0], front) then xs[0] else front
  {
  }

  lemma LeastOf<T(!new)>(xs: seq<T>, le: (T, T) -> bool, k: nat)
    requires |xs| > 1 && Orders(le) && FirstLeast(xs[1..], le, k)
    ensures FirstLeast(xs, le, if le(xs[0], xs[1..][k]) then 0 else k + 1)
  {
    var rest := xs[1..];
    assert forall j :: 1 <= j < |xs| ==> xs[j] == rest[j - 1];
  }
}
