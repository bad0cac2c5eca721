/** Running a list of commands over a state, and what removing, repeating or replacing one of them does
    to the outcome. */
module CommandFold {
  import opened Basics
  import opened Commands

  function Fold<S>(f: (S, Command) -> S, s: S, cs: seq<Command>): S {
    if cs == [] then s else f(Fold(f, s, cs[..|cs| - 1]), cs[|cs| - 1])
  }

  /** `p` holds of every command and the state it meets. */
  ghost predicate Chain<S>(f: (S, Command) -> S, p: (S, Command) -> bool, s: S, cs: seq<Command>) {
    forall i :: 0 <= i < |cs| ==> p(Fold(f, s, cs[..i]), cs[i])
  }

  ghost predicate Inert<S(!new)>(f: (S, Command) -> S, c: Command) {
    forall s :: f(s, c) == s
  }

  lemma FoldLast<S>(f: (S, Command) -> S, p: (S, Command) -> bool, s: S, cs: seq<Command>, c: Command)
    ensures Fold(f, s, cs + [c]) == f(Fold(f, s, cs), c)
    ensures Chain(f, p, s, cs) && p(Fold(f, s, cs), c) ==> Chain(f, p, s, cs + [c])
  {
    assert (cs + [c])[..|cs|] == cs;
    if Chain(f, p, s, cs) && p(Fold(f, s, cs), c) {
      forall i | 0 <= i < |cs + [c]| ensures p(Fold(f, s, (cs + [c])[..i]), (cs + [c])[i]) {
        assert (cs + [c])[..i] == cs[..i];
        assert cs[..|cs|] == cs;
      }
    }
  }

  lemma {:induction false} FoldInert<S(!new)>(f: (S, Command) -> S, s: S, cs: seq<Command>)
    requires forall c :: c in cs ==> Inert(f, c)
    ensures Fold(f, s, cs) == s
  {
    if cs != [] {
      assert Inert(f, cs[|cs| - 1]);
      FoldInert(f, s, cs[..|cs| - 1]);
    }
  }

  /** Dropping a command that changed nothing where it stood. */
  lemma {:induction false} FoldWithout<S>(f: (S, Command) -> S, s: S, cs: seq<Command>, i: nat)
    requires i < |cs| && f(Fold(f, s, cs[..i]), cs[i]) == Fold(f, s, cs[..i])
    ensures Fold(f, s, cs[..i] + cs[i + 1..]) == Fold(f, s, cs)
    decreases |cs|
  {
    var n := |cs| - 1;
    if i == n {
      assert cs[..i] + cs[i + 1..] == cs[..n];
    } else {
      var front := cs[..n];
      assert front[..i] == cs[..i];
      FoldWithout(f, s, front, i);
      var rest := cs[..i] + cs[i + 1..];
      assert rest[..|rest| - 1] == front[..i] + front[i + 1..];
    }
  }

  lemma ChainWithout<S>(f: (S, Command) -> S, p: (S, Command) -> bool, s: S, cs: seq<Command>, i: nat)
    requires Chain(f, p, s, cs)
    requires i < |cs| && f(Fold(f, s, cs[..i]), cs[i]) == Fold(f, s, cs[..i])
    ensures Chain(f, p, s, cs[..i] + cs[i + 1..])
  {
    var rest := cs[..i] + cs[i + 1..];
    hide Fold;
    forall m | 0 <= m < |rest| ensures p(Fold(f, s, rest[..m]), rest[m]) {
      FoldUpTo(f, s, cs, i, m);
    }
  }

  lemma FoldUpTo<S>(f: (S, Command) -> S, s: S, cs: seq<Command>, i: nat, m: nat)
    requires i < |cs| && m < |cs| - 1 && f(Fold(f, s, cs[..i]), cs[i]) == Fold(f, s, cs[..i])
    ensures var rest := cs[..i] + cs[i + 1..];
            Fold(f, s, rest[..m]) == Fold(f, s, if m < i then cs[..m] else cs[..m + 1])
  {
    var rest := cs[..i] + cs[i + 1..];
    if m < i {
      assert rest[..m] == cs[..m];
    } else {
      var upTo := cs[..m + 1];
      assert upTo[..i] == cs[..i] && upTo[i] == cs[i];
      FoldWithout(f, s, upTo, i);
      assert rest[..m] == upTo[..i] + upTo[i + 1..];
    }
  }

  /** Command `i` has reached the state ahead of the others; the outcome is the same. */
  lemma {:induction false} FoldReplayed<S(!new)>(f: (S, Command) -> S, s: S, cs: seq<Command>, i: nat)
    requires i < |cs| && f(f(s, cs[i]), cs[i]) == f(s, cs[i])
    requires forall j :: 0 <= j < i ==> Inert(f, cs[j])
    ensures Fold(f, f(s, cs[i]), cs) == Fold(f, s, cs)
    decreases |cs|
  {
    var n := |cs| - 1;
    if i == n {
      FoldInert(f, s, cs[..n]);
      FoldInert(f, f(s, cs[i]), cs[..n]);
    } else {
      FoldReplayed(f, s, cs[..n], i);
    }
  }

  lemma ChainReplayed<S(!new)>(f: (S, Command) -> S, p: (S, Command) -> bool, s: S, cs: seq<Command>, i: nat)
    requires Chain(f, p, s, cs)
    requires i < |cs| && f(f(s, cs[i]), cs[i]) == f(s, cs[i])
    requires forall j :: 0 <= j < i ==> Inert(f, cs[j])
    requires forall j :: 0 <= j <= i ==> p(f(s, cs[i]), cs[j])
    ensures p(s, cs[i])
    ensures Chain(f, p, f(s, cs[i]), cs)
  {
    FoldInert(f, s, cs[..i]);
    assert p(Fold(f, s, cs[..i]), cs[i]);
    forall m | 0 <= m < |cs| ensures p(Fold(f, f(s, cs[i]), cs[..m]), cs[m]) {
      if m <= i {
        FoldInert(f, f(s, cs[i]), cs[..m]);
      } else {
        FoldReplayed(f, s, cs[..m], i);
      }
    }
  }

  /** Command `i` was replaced by one that does its work and then that of `c`, and nothing after it acts. */
  lemma FoldMerged<S(!new)>(f: (S, Command) -> S, p: (S, Command) -> bool, s: S, cs: seq<Command>,
                            i: nat, merged: Command, c: Command)
    requires i < |cs|
    requires f(Fold(f, s, cs[..i]), merged) == f(f(Fold(f, s, cs[..i]), cs[i]), c)
    requires forall j :: i < j < |cs| ==> Inert(f, cs[j])
    ensures Fold(f, s, cs[i := merged]) == f(Fold(f, s, cs), c)
  {
    var after := cs[i := merged];
    FoldThenInert(f, s, cs, i);
    assert after[..i] == cs[..i];
    FoldThenInert(f, s, after, i);
  }

  lemma {:induction false} FoldThenInert<S(!new)>(f: (S, Command) -> S, s: S, cs: seq<Command>, i: nat)
    requires i < |cs| && forall j :: i < j < |cs| ==> Inert(f, cs[j])
    ensures Fold(f, s, cs) == f(Fold(f, s, cs[..i]), cs[i])
    decreases |cs|
  {
    if i < |cs| - 1 {
      assert Inert(f, cs[|cs| - 1]);
      var front := cs[..|cs| - 1];
      assert front[..i] == cs[..i];
      FoldThenInert(f, s, front, i);
    }
  }

  lemma ChainMerged<S(!new)>(f: (S, Command) -> S, p: (S, Command) -> bool, s: S, cs: seq<Command>,
                             i: nat, merged: Command)
    requires Chain(f, p, s, cs) && i < |cs| && p(Fold(f, s, cs[..i]), merged)
    requires forall j :: i < j < |cs| ==> Inert(f, cs[j]) && forall x, y :: p(x, cs[j]) ==> p(y, cs[j])
    ensures Chain(f, p, s, cs[i := merged])
  {
    var after := cs[i := merged];
    forall m | 0 <= m < |after| ensures p(Fold(f, s, after[..m]), after[m]) {
      if m <= i {
        assert after[..m] == cs[..m];
      } else {
        assert p(Fold(f, s, cs[..m]), cs[m]);
      }
    }
  }

  /** Two lists that differ only in inert commands have the same outcome; here one list is `cs` with command
      `i` swapped for another inert one. */
  lemma {:induction false} FoldSwapInert<S(!new)>(f: (S, Command) -> S, s: S, cs: seq<Command>, i: nat, other: Command)
    requires i < |cs| && Inert(f, cs[i]) && Inert(f, other)
    ensures Fold(f, s, cs[i := other]) == Fold(f, s, cs)
    decreases |cs|
  {
    var n := |cs| - 1;
    if i < n {
      assert cs[i := other][..n] == cs[..n][i := other];
      FoldSwapInert(f, s, cs[..n], i, other);
    } else {
      assert cs[i := other][..n] == cs[..n];
    }
  }

  lemma ChainSwapInert<S(!new)>(f: (S, Command) -> S, p: (S, Command) -> bool, s: S, cs: seq<Command>, i: nat,
                                other: Command)
    requires Chain(f, p, s, cs)
    requires i < |cs| && Inert(f, cs[i]) && Inert(f, other) && forall x :: p(x, other)
    ensures Chain(f, p, s, cs[i := other])
  {
    var after := cs[i := other];
    forall m | 0 <= m < |after| ensures p(Fold(f, s, after[..m]), after[m]) {
      if m <= i {
        assert after[..m] == cs[..m];
      } else {
        assert after[..m] == cs[..m][i := other];
        FoldSwapInert(f, s, cs[..m], i, other);
      }
    }
  }
}
