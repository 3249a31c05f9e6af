/** Positional notation: digit strings, the intervals of outcomes that digit
    prefixes stand for, and the laminar structure of those intervals. */
module Positional {

  type Path = seq<nat>

  function Pow(base: nat, e: nat): (r: nat)
    ensures base >= 1 ==> r >= 1
  {
    if e == 0 then 1 else base * Pow(base, e - 1)
  }

  predicate IsDigits(s: Path, base: nat) {
    forall i :: 0 <= i < |s| ==> s[i] < base
  }

  /** The number written by the digits `s`, most significant digit first. */
  function Value(s: Path, base: nat): nat {
    if s == [] then 0 else Value(s[..|s| - 1], base) * base + s[|s| - 1]
  }

  /** How many times `base` goes into `value`, and what is left. Counting down
      keeps division by a variable out of the proofs; see QuotientIsDivision. */
  function Quotient(value: nat, base: nat): nat
    requires base >= 1
  {
    if value < base then 0 else 1 + Quotient(value - base, base)
  }

  function Remainder(value: nat, base: nat): (r: nat)
    requires base >= 1
    ensures r < base
  {
    if value < base then value else Remainder(value - base, base)
  }

  /** The `n` digits of `value`. */
  function Digits(value: nat, base: nat, n: nat): (s: Path)
    requires base >= 2
    ensures |s| == n && IsDigits(s, base)
    decreases n
  {
    if n == 0 then [] else Digits(Quotient(value, base), base, n - 1) + [Remainder(value, base)]
  }

  /** First outcome, among `n`-digit ones, whose digits extend `p`. */
  function Lo(p: Path, base: nat, n: nat): nat
    requires |p| <= n
  {
    Value(p, base) * Pow(base, n - |p|)
  }

  /** One past the last outcome, among `n`-digit ones, whose digits extend `p`. */
  function Hi(p: Path, base: nat, n: nat): nat
    requires |p| <= n
  {
    (Value(p, base) + 1) * Pow(base, n - |p|)
  }

  lemma MulMonotone(a: nat, b: nat, c: nat)
    requires a <= b
    ensures a * c <= b * c
  {
  }

  lemma Distribute(a: nat, b: nat, c: nat)
    ensures (a + b) * c == a * c + b * c
  {
  }

  lemma Associate(a: nat, b: nat, c: nat)
    ensures (a * b) * c == a * (b * c)
  {
  }

  lemma PowAdd(base: nat, a: nat, b: nat)
    ensures Pow(base, a + b) == Pow(base, a) * Pow(base, b)
  {
    if a == 0 {
    } else {
      PowAdd(base, a - 1, b);
      Associate(base, Pow(base, a - 1), Pow(base, b));
      assert a + b - 1 == a - 1 + b;
    }
  }

  lemma ValueOfPush(s: Path, d: nat, base: nat)
    ensures Value(s + [d], base) == Value(s, base) * base + d
  {
    assert (s + [d])[..|s|] == s;
  }

  lemma {:induction false} ValueConcat(a: Path, b: Path, base: nat)
    ensures Value(a + b, base) == Value(a, base) * Pow(base, |b|) + Value(b, base)
  {
    if b == [] {
      assert a + b == a;
    } else {
      var b' := b[..|b| - 1];
      assert (a + b)[..|a + b| - 1] == a + b';
      ValueConcat(a, b', base);
      var v, p, w := Value(a, base), Pow(base, |b'|), Value(b', base);
      assert (v * p + w) * base == v * (base * p) + w * base;
    }
  }

  lemma DigitBelow(v: nat, d: nat, base: nat, w: nat)
    requires v < w && d < base
    ensures v * base + d < base * w
  {
    MulMonotone(v + 1, w, base);
    Distribute(v, 1, base);
  }

  lemma {:induction false} ValueBound(s: Path, base: nat)
    requires IsDigits(s, base)
    ensures Value(s, base) < Pow(base, |s|)
  {
    if s != [] {
      var s' := s[..|s| - 1];
      ValueBound(s', base);
      DigitBelow(Value(s', base), s[|s| - 1], base, Pow(base, |s'|));
    }
  }

  lemma {:induction false} ValueInjective(s: Path, t: Path, base: nat)
    requires IsDigits(s, base) && IsDigits(t, base) && |s| == |t|
    requires Value(s, base) == Value(t, base)
    ensures s == t
  {
    if s != [] {
      var s', t' := s[..|s| - 1], t[..|t| - 1];
      DivisionUnique(Value(s', base), s[|s| - 1], Value(t', base), t[|t| - 1], base);
      ValueInjective(s', t', base);
      assert s == s' + [s[|s| - 1]] && t == t' + [t[|t| - 1]];
    }
  }

  lemma DivisionUnique(q: nat, r: nat, q': nat, r': nat, d: nat)
    requires r < d && r' < d && q * d + r == q' * d + r'
    ensures q == q' && r == r'
  {
    if q < q' {
      MulMonotone(q + 1, q', d);
    } else if q' < q {
      MulMonotone(q' + 1, q, d);
    }
  }

  lemma {:induction false} QuotientTimesDivisor(value: nat, base: nat)
    requires base >= 1
    ensures value == Quotient(value, base) * base + Remainder(value, base)
  {
    if value >= base {
      QuotientTimesDivisor(value - base, base);
      Distribute(Quotient(value - base, base), 1, base);
    }
  }

  lemma QuotientIsDivision(value: nat, base: nat)
    requires base >= 1
    ensures Quotient(value, base) == value / base && Remainder(value, base) == value % base
  {
    QuotientTimesDivisor(value, base);
    DivisionUnique(Quotient(value, base), Remainder(value, base), value / base, value % base, base);
  }

  lemma QuotientBelow(value: nat, base: nat, w: nat)
    requires base >= 1 && value < base * w
    ensures Quotient(value, base) < w
  {
    QuotientTimesDivisor(value, base);
    if Quotient(value, base) >= w {
      MulMonotone(w, Quotient(value, base), base);
    }
  }

  lemma QuotientSmaller(value: nat, base: nat)
    requires base >= 2 && value > 0
    ensures Quotient(value, base) < value
  {
    QuotientTimesDivisor(value, base);
    MulMonotone(2, base, Quotient(value, base));
  }

  /** Writing an outcome with enough digits and reading it back gives the outcome. */
  lemma {:induction false} ValueOfDigits(value: nat, base: nat, n: nat)
    requires base >= 2 && value < Pow(base, n)
    ensures Value(Digits(value, base, n), base) == value
    decreases n
  {
    if n > 0 {
      var q, r := Quotient(value, base), Remainder(value, base);
      assert q < Pow(base, n - 1) by { QuotientBelow(value, base, Pow(base, n - 1)); }
      var s := Digits(q, base, n - 1);
      assert Value(s, base) == q by { ValueOfDigits(q, base, n - 1); }
      assert Value(s + [r], base) == q * base + r by { ValueOfPush(s, r, base); }
      QuotientTimesDivisor(value, base);
    }
  }

  lemma DigitsOfValue(s: Path, base: nat)
    requires base >= 2 && IsDigits(s, base)
    ensures Digits(Value(s, base), base, |s|) == s
  {
    ValueBound(s, base);
    ValueOfDigits(Value(s, base), base, |s|);
    ValueInjective(Digits(Value(s, base), base, |s|), s, base);
  }

  lemma InsideSameBlock(v: nat, h: nat, t: nat, w: nat)
    requires t < w
    ensures v * w <= h * w + t < (v + 1) * w <==> v == h
  {
    Distribute(v, 1, w);
    if v < h {
      MulMonotone(v + 1, h, w);
    } else if h < v {
      MulMonotone(h + 1, v, w);
      Distribute(h, 1, w);
    }
  }

  lemma SplitValue(s: Path, k: nat, base: nat)
    requires base >= 2 && k <= |s| && IsDigits(s, base)
    ensures IsDigits(s[..k], base) && Value(s[k..], base) < Pow(base, |s| - k)
    ensures Value(s, base) == Value(s[..k], base) * Pow(base, |s| - k) + Value(s[k..], base)
  {
    assert s == s[..k] + s[k..];
    ValueConcat(s[..k], s[k..], base);
    ValueBound(s[k..], base);
  }

  lemma SplitDigits(x: nat, k: nat, base: nat, n: nat)
    requires base >= 2 && k <= n && x < Pow(base, n)
    ensures var s := Digits(x, base, n);
            && IsDigits(s[..k], base) && Value(s[k..], base) < Pow(base, n - k)
            && x == Value(s[..k], base) * Pow(base, n - k) + Value(s[k..], base)
  {
    ValueOfDigits(x, base, n);
    SplitValue(Digits(x, base, n), k, base);
  }

  /** The digits of an outcome extend a prefix exactly when the outcome lies in
      the prefix's interval. */
  lemma ExtendsIffInside(p: Path, x: nat, base: nat, n: nat)
    requires base >= 2 && IsDigits(p, base) && |p| <= n && x < Pow(base, n)
    ensures p <= Digits(x, base, n) <==> Lo(p, base, n) <= x < Hi(p, base, n)
  {
    var s := Digits(x, base, n);
    var head := s[..|p|];
    assert Lo(p, base, n) <= x < Hi(p, base, n) <==> Value(p, base) == Value(head, base) by {
      SplitDigits(x, |p|, base, n);
      InsideSameBlock(Value(p, base), Value(head, base), Value(s[|p|..], base), Pow(base, n - |p|));
    }
    if Value(p, base) == Value(head, base) {
      ValueInjective(p, head, base);
      assert p <= s;
    } else {
      assert p != head;
    }
  }

  lemma ScaledSum(v: nat, w: nat, ps: nat, pe: nat)
    ensures (v * ps + w) * pe == v * (ps * pe) + w * pe
  {
    Distribute(v * ps, w, pe);
    Associate(v, ps, pe);
  }

  lemma {:induction false} IntervalOfConcat(p: Path, s: Path, base: nat, n: nat)
    requires |p| + |s| <= n
    ensures Lo(p + s, base, n) == Lo(p, base, n) + Lo(s, base, n - |p|)
    ensures Hi(p + s, base, n) == Lo(p, base, n) + Hi(s, base, n - |p|)
  {
    var v, w, e := Value(p, base), Value(s, base), n - |p| - |s|;
    var ps, pe := Pow(base, |s|), Pow(base, e);
    assert Value(p + s, base) == v * ps + w by { ValueConcat(p, s, base); }
    assert Pow(base, n - |p|) == ps * pe by { PowAdd(base, |s|, e); }
    ScaledSum(v, w, ps, pe);
    ScaledSum(v, w + 1, ps, pe);
    assert n - |p + s| == e;
  }

  lemma IntervalNonempty(p: Path, base: nat, n: nat)
    requires base >= 1 && |p| <= n
    ensures Lo(p, base, n) < Hi(p, base, n)
  {
    Distribute(Value(p, base), 1, Pow(base, n - |p|));
  }

  lemma IntervalBounded(p: Path, base: nat, n: nat)
    requires IsDigits(p, base) && |p| <= n
    ensures Hi(p, base, n) <= Pow(base, n)
  {
    ValueBound(p, base);
    PowAdd(base, |p|, n - |p|);
    MulMonotone(Value(p, base) + 1, Pow(base, |p|), Pow(base, n - |p|));
  }

  /** Extending a prefix shrinks its interval. */
  lemma IntervalNested(p: Path, s: Path, base: nat, n: nat)
    requires IsDigits(s, base) && |p| + |s| <= n
    ensures Lo(p, base, n) <= Lo(p + s, base, n)
    ensures Hi(p + s, base, n) <= Hi(p, base, n)
  {
    IntervalOfConcat(p, s, base, n);
    IntervalBounded(s, base, n - |p|);
    Distribute(Value(p, base), 1, Pow(base, n - |p|));
  }

  lemma FullLengthInterval(s: Path, base: nat)
    ensures Lo(s, base, |s|) == Value(s, base) && Hi(s, base, |s|) == Value(s, base) + 1
  {
    assert Pow(base, 0) == 1;
  }

  lemma WholeSpace(base: nat, n: nat)
    ensures Lo([], base, n) == 0 && Hi([], base, n) == Pow(base, n)
  {
  }

  lemma FirstAndLastChild(p: Path, base: nat, n: nat)
    requires base >= 1 && |p| < n
    ensures Lo(p + [0], base, n) == Lo(p, base, n)
    ensures Hi(p + [base - 1], base, n) == Hi(p, base, n)
  {
    assert (p + [0])[..|p|] == p && (p + [base - 1])[..|p|] == p;
    var v, w := Value(p, base), Pow(base, n - |p| - 1);
    assert Pow(base, n - |p|) == base * w;
    assert (v * base + 0) * w == v * (base * w);
    assert (v * base + base - 1 + 1) * w == (v + 1) * (base * w);
  }

  lemma NextSibling(p: Path, d: nat, base: nat, n: nat)
    requires |p| < n
    ensures Lo(p + [d + 1], base, n) == Hi(p + [d], base, n)
  {
    assert (p + [d + 1])[..|p|] == p && (p + [d])[..|p|] == p;
  }
}
