/** Times of day as text (csv.ts): what is read, what is written, and the order of the texts. */
module LocalTimes {
  import opened Basics

  datatype LocalTime = LocalTime(hour: nat, minute: nat, second: nat, nano: nat) {
    predicate Valid() {
      hour < 24 && minute < 60 && second < 60 && nano < 1_000_000_000
    }

    function Nanos(): nat {
      ((hour * 60 + minute) * 60 + second) * 1_000_000_000 + nano
    }
  }

  // ---- digits ------------------------------------------------------------------------------------

  function Digit(d: nat): (c: char)
    requires d < 10
    ensures '0' <= c <= '9' && Value(c) == d
  {
    (48 + d) as char
  }

  function Value(c: char): int {
    c as int - 48
  }

  predicate Digits(s: string) {
    forall i :: 0 <= i < |s| ==> '0' <= s[i] <= '9'
  }

  function Number(s: string): (n: nat)
    requires Digits(s)
  {
    if s == "" then 0 else Number(s[..|s| - 1]) * 10 + Value(s[|s| - 1])
  }

  function Pow10(w: nat): nat {
    if w == 0 then 1 else 10 * Pow10(w - 1)
  }

  /** The last `w` digits of the number. */
  function Pad(n: nat, w: nat): (s: string)
    ensures |s| == w && Digits(s)
  {
    if w == 0 then "" else Pad(n / 10, w - 1) + [Digit(n % 10)]
  }

  lemma {:induction false} PadReads(n: nat, w: nat)
    requires n < Pow10(w)
    ensures Number(Pad(n, w)) == n
  {
    if w > 0 {
      PadReads(n / 10, w - 1);
      var s := Pad(n, w);
      assert s[..w - 1] == Pad(n / 10, w - 1) && s[w - 1] == Digit(n % 10);
    }
  }

  function Zeros(k: nat): (s: string)
    ensures |s| == k && forall i :: 0 <= i < k ==> s[i] == '0'
  {
    seq(k, i => '0')
  }

  lemma {:induction false} PadRound(q: nat, w: nat, k: nat)
    ensures Pad(q * Pow10(k), w + k) == Pad(q, w) + Zeros(k)
  {
    if k == 0 {
      assert Pad(q, w) + Zeros(0) == Pad(q, w);
    } else {
      PadRound(q, w, k - 1);
      var n := q * Pow10(k);
      TenTimes(q, Pow10(k - 1));
      assert n / 10 == q * Pow10(k - 1) && n % 10 == 0;
      assert Digit(0) == '0';
      assert Zeros(k) == Zeros(k - 1) + ['0'];
      assert Pad(n, w + k) == Pad(q, w) + Zeros(k - 1) + ['0'];
    }
  }

  lemma TenTimes(q: nat, p: nat)
    ensures q * (10 * p) == 10 * (q * p)
  {
  }

  // ---- reading and writing -----------------------------------------------------------------------

  /** HH:mm[:ss[.fraction]], with at most nine digits of fraction. */
  function Parse(s: string): Option<LocalTime> {
    if |s| < 5 || !Digits(s[..2]) || s[2] != ':' || !Digits(s[3..5]) then None
    else
      var hour, minute := Number(s[..2]), Number(s[3..5]);
      if |s| == 5 then InRange(LocalTime(hour, minute, 0, 0))
      else if |s| < 8 || s[5] != ':' || !Digits(s[6..8]) then None
      else
        var second := Number(s[6..8]);
        if |s| == 8 then InRange(LocalTime(hour, minute, second, 0))
        else if s[8] != '.' || |s| > 18 || !Digits(s[9..]) then None
        else InRange(LocalTime(hour, minute, second, Number(s[9..] + Zeros(18 - |s|))))
  }

  function InRange(t: LocalTime): Option<LocalTime> {
    if t.hour > 23 || t.minute > 59 || t.second > 59 then None else Some(t)
  }

  /** The fraction in three, six or nine digits. */
  function Fraction(nano: nat): string {
    var nine := Pad(nano, 9);
    if nano % 1_000_000 == 0 then nine[..3] else if nano % 1000 == 0 then nine[..6] else nine
  }

  function FractionText(nano: nat): string {
    if nano > 0 then "." + Fraction(nano) else ""
  }

  function Format(t: LocalTime): string {
    Pad(t.hour, 2) + ":" + Pad(t.minute, 2)
    + (if t.second > 0 || t.nano > 0 then ":" + Pad(t.second, 2) else "")
    + FractionText(t.nano)
  }

  /** The canonical text of a time, if the text is one. */
  function ParseLocalTime(s: string): Option<string> {
    match Parse(s)
    case Some(t) => Some(Format(t))
    case None => None
  }

  lemma {:induction false} NumberBound(s: string)
    requires Digits(s)
    ensures Number(s) < Pow10(|s|)
  {
    if s != "" {
      NumberBound(s[..|s| - 1]);
    }
  }

  lemma ParsedIsValid(s: string)
    ensures Parse(s).Some? ==> Parse(s).value.Valid()
  {
    if |s| > 8 && |s| <= 18 && Digits(s[9..]) {
      NumberBound(s[9..] + Zeros(18 - |s|));
      assert Pow10(9) == 1_000_000_000;
    }
  }

  /** The fraction and the zeros that were left out. */
  lemma FractionReads(nano: nat)
    requires nano < 1_000_000_000
    ensures var f := Fraction(nano);
            |f| in {3, 6, 9} && Digits(f) && f + Zeros(9 - |f|) == Pad(nano, 9) && Number(f + Zeros(9 - |f|)) == nano
  {
    assert Pow10(9) == 1_000_000_000 && Pow10(6) == 1_000_000 && Pow10(3) == 1000;
    PadReads(nano, 9);
    hide Pad, Number, Pow10;
    if nano % 1_000_000 == 0 {
      FractionSplits(nano, nano / 1_000_000, 3, 6);
    } else if nano % 1000 == 0 {
      FractionSplits(nano, nano / 1000, 6, 3);
    } else {
      assert Fraction(nano) + Zeros(0) == Fraction(nano);
    }
  }

  lemma FractionSplits(nano: nat, q: nat, w: nat, k: nat)
    requires nano == q * Pow10(k) && w + k == 9
    ensures Digits(Pad(nano, 9)[..w]) && Pad(nano, 9)[..w] + Zeros(k) == Pad(nano, 9)
  {
    PadRound(q, w, k);
    assert Pad(nano, 9)[..w] == Pad(q, w);
  }

  lemma ReadsMinutes(h: string, m: string)
    requires |h| == |m| == 2 && Digits(h) && Digits(m)
    ensures Parse(h + ":" + m) == InRange(LocalTime(Number(h), Number(m), 0, 0))
  {
    hide Number, Digits, InRange;
    var s := h + ":" + m;
    assert s[..2] == h && s[3..5] == m;
  }

  lemma ReadsSeconds(h: string, m: string, sec: string)
    requires |h| == |m| == |sec| == 2 && Digits(h) && Digits(m) && Digits(sec)
    ensures Parse(h + ":" + m + (":" + sec)) == InRange(LocalTime(Number(h), Number(m), Number(sec), 0))
  {
    hide Number, Digits, InRange;
    var s := h + ":" + m + (":" + sec);
    assert s[..2] == h && s[3..5] == m && s[6..8] == sec;
  }

  lemma Slices(h: string, m: string, sec: string, f: string)
    requires |h| == |m| == |sec| == 2
    ensures var s := h + ":" + m + (":" + sec) + ("." + f);
            && |s| == 9 + |f| && s[2] == ':' && s[5] == ':' && s[8] == '.'
            && s[..2] == h && s[3..5] == m && s[6..8] == sec && s[9..] == f
  {
    var p := h + ":" + m + (":" + sec);
    assert p[..2] == h && p[3..5] == m && p[6..8] == sec;
    SlicesStay(p, "." + f);
  }

  lemma SlicesStay(p: string, x: string)
    requires |p| == 8
    ensures (p + x)[..2] == p[..2] && (p + x)[3..5] == p[3..5] && (p + x)[6..8] == p[6..8]
    ensures x != "" ==> (p + x)[9..] == x[1..]
  {
  }

  lemma ReadsFraction(h: string, m: string, sec: string, f: string)
    requires |h| == |m| == |sec| == 2 && Digits(h) && Digits(m) && Digits(sec) && |f| <= 9 && Digits(f)
    ensures Digits(f + Zeros(9 - |f|))
    ensures Parse(h + ":" + m + (":" + sec) + ("." + f))
            == InRange(LocalTime(Number(h), Number(m), Number(sec), Number(f + Zeros(9 - |f|))))
  {
    assert Digits(f + Zeros(9 - |f|));
    Slices(h, m, sec, f);
    var s := h + ":" + m + (":" + sec) + ("." + f);
    ReadsSlices(s);
    hide *;
  }

  lemma ReadsSlices(s: string)
    requires 9 <= |s| <= 18 && s[2] == ':' && s[5] == ':' && s[8] == '.'
    requires Digits(s[..2]) && Digits(s[3..5]) && Digits(s[6..8]) && Digits(s[9..]) && Digits(s[9..] + Zeros(18 - |s|))
    ensures Parse(s) == InRange(LocalTime(Number(s[..2]), Number(s[3..5]), Number(s[6..8]), Number(s[9..] + Zeros(18 - |s|))))
  {
    hide Number, Digits, InRange, Zeros;
  }

  lemma PadReadsTwo(n: nat)
    requires n < 60
    ensures Number(Pad(n, 2)) == n
  {
    assert Pow10(2) == 100;
    PadReads(n, 2);
  }

  /** What is written reads as the time it was. */
  lemma FormatReads(t: LocalTime)
    requires t.Valid()
    ensures Parse(Format(t)) == Some(t)
  {
    hide Pad, Number, Fraction, Pow10, Digits, Parse, Zeros;
    PadReadsTwo(t.hour);
    PadReadsTwo(t.minute);
    PadReadsTwo(t.second);
    var h, m, sec := Pad(t.hour, 2), Pad(t.minute, 2), Pad(t.second, 2);
    if t.nano > 0 {
      FractionReads(t.nano);
      ReadsFraction(h, m, sec, Fraction(t.nano));
    } else {
      ReadsMinutes(h, m);
      ReadsSeconds(h, m, sec);
      assert h + ":" + m + "" + "" == h + ":" + m;
      assert h + ":" + m + (":" + sec) + "" == h + ":" + m + (":" + sec);
    }
  }

  /** Nothing is written that need not be: seconds only where there are some, and three, six or nine digits of fraction,
      as few as the fraction allows. */
  lemma FormatIsShort(t: LocalTime)
    requires t.Valid()
    ensures var s := Format(t);
            && (t.second == 0 && t.nano == 0 ==> |s| == 5)
            && (t.second > 0 && t.nano == 0 ==> |s| == 8)
            && (t.nano > 0 && t.nano % 1_000_000 == 0 ==> |s| == 12)
            && (t.nano % 1000 == 0 && t.nano % 1_000_000 > 0 ==> |s| == 15)
            && (t.nano % 1000 > 0 ==> |s| == 18)
  {
    FractionLength(t.nano);
    hide Pad, FractionText, LocalTime.Nanos;
  }

  lemma FractionLength(nano: nat)
    ensures |FractionText(nano)| == if nano == 0 then 0 else if nano % 1_000_000 == 0 then 4
                                    else if nano % 1000 == 0 then 7 else 10
  {
    hide Pad;
  }

  /** What is read, for any digits: hours and minutes, then seconds, then up to nine digits of fraction, which count from
      the left; and only times of one day. */
  lemma ReadsTimes(h: string, m: string, sec: string, f: string)
    requires |h| == |m| == |sec| == 2 && Digits(h) && Digits(m) && Digits(sec) && |f| <= 9 && Digits(f)
    ensures Digits(f + Zeros(9 - |f|))
    ensures var (hour, minute, second, nano) := (Number(h), Number(m), Number(sec), Number(f + Zeros(9 - |f|)));
            && Parse(h + ":" + m) == (if hour < 24 && minute < 60 then Some(LocalTime(hour, minute, 0, 0)) else None)
            && Parse(h + ":" + m + (":" + sec))
               == (if hour < 24 && minute < 60 && second < 60 then Some(LocalTime(hour, minute, second, 0)) else None)
            && Parse(h + ":" + m + (":" + sec) + ("." + f))
               == (if hour < 24 && minute < 60 && second < 60 then Some(LocalTime(hour, minute, second, nano)) else None)
  {
    assert Digits(f + Zeros(9 - |f|));
    ReadsMinutes(h, m);
    ReadsSeconds(h, m, sec);
    ReadsFraction(h, m, sec, f);
    hide Number, Parse, Digits, Zeros;
  }

  /** A canonical text is its own canonical text. */
  lemma ParseIsIdempotent(s: string)
    requires ParseLocalTime(s).Some?
    ensures ParseLocalTime(ParseLocalTime(s).value) == ParseLocalTime(s)
  {
    ParsedIsValid(s);
    FormatReads(Parse(s).value);
    hide Parse, Format;
  }

  /** Texts have the same canonical text exactly when they are the same time. */
  lemma CanonicalIsInstant(a: string, b: string)
    requires Parse(a).Some? && Parse(b).Some?
    ensures ParseLocalTime(a) == ParseLocalTime(b) <==> Parse(a) == Parse(b)
    ensures Parse(a) == Parse(b) <==> Parse(a).value.Nanos() == Parse(b).value.Nanos()
  {
    ParsedIsValid(a);
    ParsedIsValid(b);
    FormatReads(Parse(a).value);
    FormatReads(Parse(b).value);
    NanosDiffer(Parse(a).value, Parse(b).value);
    hide *;
    hide LocalTime.Nanos, LocalTime.Valid;
    assert ParseLocalTime(a).value == Format(Parse(a).value) && ParseLocalTime(b).value == Format(Parse(b).value) by {
      Canonical(a);
      Canonical(b);
    }
  }

  lemma Canonical(s: string)
    requires Parse(s).Some?
    ensures ParseLocalTime(s) == Some(Format(Parse(s).value))
  {
  }

  lemma NanosDiffer(a: LocalTime, b: LocalTime)
    requires a.Valid() && b.Valid()
    ensures a.Nanos() == b.Nanos() <==> a == b
  {
    if a.Nanos() == b.Nanos() {
      var x, y := (a.hour * 60 + a.minute) * 60 + a.second, (b.hour * 60 + b.minute) * 60 + b.second;
      SameNanos(x, y, a.nano, b.nano);
      SameSixties(a.hour * 60 + a.minute, b.hour * 60 + b.minute, a.second, b.second);
      SameSixties(a.hour, b.hour, a.minute, b.minute);
    }
  }

  lemma SameNanos(x: nat, y: nat, m: nat, n: nat)
    requires x * 1_000_000_000 + m == y * 1_000_000_000 + n && m < 1_000_000_000 && n < 1_000_000_000
    ensures x == y && m == n
  {
  }

  lemma SameSixties(x: nat, y: nat, m: nat, n: nat)
    requires x * 60 + m == y * 60 + n && m < 60 && n < 60
    ensures x == y && m == n
  {
  }

  // ---- the order of the texts --------------------------------------------------------------------

  /** The operator `<` on strings. */
  predicate Lex(a: string, b: string) {
    b != "" && (a == "" || a[0] < b[0] || (a[0] == b[0] && Lex(a[1..], b[1..])))
  }

  /** Seconds are always written. */
  function Sortable(s: string): string {
    if |s| == 5 then s + ":00" else s
  }

  lemma {:induction false} LexPrefix(p: string, a: string, b: string)
    ensures Lex(p + a, p + b) <==> Lex(a, b)
  {
    if p == "" {
      assert p + a == a && p + b == b;
    } else {
      LexPrefix(p[1..], a, b);
      assert (p + a)[1..] == p[1..] + a && (p + b)[1..] == p[1..] + b;
    }
  }

  lemma {:induction false} LexIsOrder(a: string, b: string)
    ensures !(Lex(a, b) && Lex(b, a))
    ensures a == b || Lex(a, b) || Lex(b, a)
    ensures !Lex(a, a)
  {
    if a != "" {
      if b != "" {
        LexIsOrder(a[1..], b[1..]);
        assert a == [a[0]] + a[1..] && b == [b[0]] + b[1..];
      } else {
        LexIsOrder(a[1..], a[1..]);
      }
    }
  }

  lemma LexFirst(c: char, d: char, x: string, y: string)
    ensures Lex([c] + x, [d] + y) <==> c < d || (c == d && Lex(x, y))
  {
    assert ([c] + x)[1..] == x && ([d] + y)[1..] == y;
  }

  /** Padded numbers in front decide, and if they are equal, what follows. */
  lemma {:induction false} LexPads(a: nat, b: nat, w: nat, x: string, y: string)
    requires a < Pow10(w) && b < Pow10(w)
    ensures Lex(Pad(a, w) + x, Pad(b, w) + y) <==> a < b || (a == b && Lex(x, y))
  {
    if w == 0 {
      assert Pad(a, 0) + x == x && Pad(b, 0) + y == y;
    } else {
      var c, d := [Digit(a % 10)] + x, [Digit(b % 10)] + y;
      assert a / 10 < Pow10(w - 1) && b / 10 < Pow10(w - 1);
      hide Pow10, Lex;
      LexPads(a / 10, b / 10, w - 1, c, d);
      LexFirst(Digit(a % 10), Digit(b % 10), x, y);
      assert Pad(a, w) + x == Pad(a / 10, w - 1) + c && Pad(b, w) + y == Pad(b / 10, w - 1) + d;
    }
  }

  /** Trailing zeros may go. */
  lemma {:induction false} LexTrimmed(a: string, b: string, k: nat, l: nat)
    requires |a| == |b| && k <= |a| && l <= |b| && Digits(a) && Digits(b)
    requires (forall i :: k <= i < |a| ==> a[i] == '0') && forall i :: l <= i < |b| ==> b[i] == '0'
    requires Lex(a, b)
    ensures Lex(a[..k], b[..l])
  {
    if k == 0 {
      if l == 0 {
        assert a == b;
        LexIsOrder(a, b);
      }
    } else if l == 0 {
      assert b[0] == '0';
      NothingBelowZeros(a, b);
    } else if a[0] == b[0] {
      LexTrimmed(a[1..], b[1..], k - 1, l - 1);
      assert a[..k][1..] == a[1..][..k - 1] && b[..l][1..] == b[1..][..l - 1];
    }
  }

  lemma {:induction false} NothingBelowZeros(a: string, b: string)
    requires |a| == |b| && Digits(a) && forall i :: 0 <= i < |b| ==> b[i] == '0'
    ensures !Lex(a, b)
  {
    if a != "" {
      NothingBelowZeros(a[1..], b[1..]);
    }
  }

  lemma TrimmedBelow(f: string, g: string)
    requires |f| <= 9 && |g| <= 9 && Digits(f) && Digits(g) && Lex(f + Zeros(9 - |f|), g + Zeros(9 - |g|))
    ensures Lex(f, g)
  {
    var x, y := f + Zeros(9 - |f|), g + Zeros(9 - |g|);
    assert x[..|f|] == f && y[..|g|] == g;
    LexTrimmed(x, y, |f|, |g|);
  }

  lemma FractionsBelow(a: nat, b: nat)
    requires a < b < 1_000_000_000
    ensures Lex(FractionText(a), FractionText(b))
  {
    FractionReads(a);
    FractionReads(b);
    assert Pow10(9) == 1_000_000_000;
    hide Pow10, Pad, Fraction, Number, Digits;
    LexPads(a, b, 9, "", "");
    assert Pad(a, 9) + "" == Pad(a, 9) && Pad(b, 9) + "" == Pad(b, 9);
    if a > 0 {
      hide Lex;
      TrimmedBelow(Fraction(a), Fraction(b));
      LexPrefix(".", Fraction(a), Fraction(b));
    }
  }

  lemma FractionsOrdered(a: nat, b: nat)
    requires a < 1_000_000_000 && b < 1_000_000_000
    ensures Lex(FractionText(a), FractionText(b)) <==> a < b
  {
    LexIsOrder(FractionText(a), FractionText(b));
    if a < b {
      FractionsBelow(a, b);
    } else if b < a {
      FractionsBelow(b, a);
    }
  }

  lemma SortableText(t: LocalTime)
    requires t.Valid()
    ensures Sortable(Format(t)) == Pad(t.hour, 2) + (":" + (Pad(t.minute, 2) + (":" + (Pad(t.second, 2) + FractionText(t.nano)))))
  {
    assert Pad(0, 2) == "00" by {
      assert Digit(0) == '0';
      assert Pad(0, 1) == "0";
    }
    var h, m, sec, f := Pad(t.hour, 2), Pad(t.minute, 2), Pad(t.second, 2), FractionText(t.nano);
    if t.second == 0 && t.nano == 0 {
      NoFraction(t.nano);
      hide Pad, FractionText;
      WithoutSeconds(h, m);
    } else {
      hide Pad, FractionText;
      WithSeconds(h, m, sec, f);
    }
  }

  lemma WithoutSeconds(h: string, m: string)
    requires |h| == |m| == 2
    ensures Sortable(h + ":" + m + "" + "") == h + (":" + (m + (":" + ("00" + ""))))
  {
    assert h + ":" + m + "" + "" == h + ":" + m;
    Regroup(h, m, ":00");
    assert ":00" == ":" + ("00" + "");
  }

  lemma WithSeconds(h: string, m: string, sec: string, f: string)
    requires |h| == |m| == |sec| == 2
    ensures Sortable(h + ":" + m + (":" + sec) + f) == h + (":" + (m + (":" + (sec + f))))
  {
    Regroup(h, m, (":" + sec) + f);
    assert h + ":" + m + (":" + sec) + f == (h + ":" + m) + ((":" + sec) + f);
    assert (":" + sec) + f == ":" + (sec + f);
  }

  lemma NoFraction(nano: nat)
    ensures nano == 0 ==> FractionText(nano) == ""
  {
  }

  lemma Regroup(h: string, m: string, x: string)
    ensures (h + ":" + m) + x == h + (":" + (m + x))
  {
  }

  /** The order of the sortable texts is the order of the times. */
  lemma TextOrderIsTimeOrder(a: LocalTime, b: LocalTime)
    requires a.Valid() && b.Valid()
    ensures Lex(Sortable(Format(a)), Sortable(Format(b))) <==> a.Nanos() < b.Nanos()
  {
    SortableText(a);
    SortableText(b);
    assert Pow10(2) == 100;
    hide Pad, Format, Sortable, FractionText, Lex, Pow10;
    FractionsOrdered(a.nano, b.nano);
    var a1, b1 := Pad(a.second, 2) + FractionText(a.nano), Pad(b.second, 2) + FractionText(b.nano);
    LexPads(a.second, b.second, 2, FractionText(a.nano), FractionText(b.nano));
    LexPrefix(":", a1, b1);
    LexPads(a.minute, b.minute, 2, ":" + a1, ":" + b1);
    var a2, b2 := Pad(a.minute, 2) + (":" + a1), Pad(b.minute, 2) + (":" + b1);
    LexPrefix(":", a2, b2);
    LexPads(a.hour, b.hour, 2, ":" + a2, ":" + b2);
  }
}
