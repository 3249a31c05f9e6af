/** Model of dlc-trie/src/digit_decomposition.rs, digits part: conversion between
    outcomes and digits, and the grouping of a range of outcomes into prefixes. */
module DigitDecomposition {
  import opened Positional
  import opened DigitCover

  function Reversed(s: Path): (r: Path)
    ensures |r| == |s|
  {
    if s == [] then [] else Reversed(s[1..]) + [s[0]]
  }

  lemma {:induction false} ReversedPush(s: Path, d: nat)
    ensures Reversed(s + [d]) == [d] + Reversed(s)
  {
    if s == [] {
      assert s + [d] == [d];
      assert Reversed([d]) == Reversed([]) + [d];
    } else {
      assert (s + [d])[1..] == s[1..] + [d];
      ReversedPush(s[1..], d);
    }
  }

  /** What the decomposition loops keep: the digits still to be found for `v`,
      followed by those found so far, are the digits of the value. */
  predicate Decomposing(value: nat, v: nat, res: Path, base: nat, nbDigits: nat)
    requires base >= 2
  {
    && |res| <= nbDigits && v < Pow(base, nbDigits - |res|)
    && Digits(value, base, nbDigits) == Digits(v, base, nbDigits - |res|) + Reversed(res)
  }

  lemma DecomposeStep(value: nat, v: nat, res: Path, base: nat, nbDigits: nat)
    requires base >= 2 && Decomposing(value, v, res, base, nbDigits) && |res| < nbDigits
    ensures Decomposing(value, Quotient(v, base), res + [Remainder(v, base)], base, nbDigits)
  {
    var n := nbDigits - |res|;
    var q, r := Quotient(v, base), Remainder(v, base);
    QuotientBelow(v, base, Pow(base, n - 1));
    ReversedPush(res, r);
    assert Digits(q, base, n - 1) + ([r] + Reversed(res)) == (Digits(q, base, n - 1) + [r]) + Reversed(res);
  }

  method DecomposeValue(value: nat, base: nat, nbDigits: nat) returns (digits: Path)
    requires base >= 2 && value < Pow(base, nbDigits)
    ensures digits == Digits(value, base, nbDigits)
  {
    var v: nat, res: Path := value, [];
    while v > 0
      invariant Decomposing(value, v, res, base, nbDigits)
    {
      DecomposeStep(value, v, res, base, nbDigits);
      QuotientSmaller(v, base);
      QuotientIsDivision(v, base);
      res := res + [v % base];
      v := v / base;
    }
    while |res| < nbDigits
      invariant Decomposing(value, 0, res, base, nbDigits)
    {
      DecomposeStep(value, 0, res, base, nbDigits);
      res := res + [0];
    }
    digits := Reversed(res);
  }

  method ComposeValue(values: Path, base: nat) returns (composed: nat)
    ensures composed == Value(values, base)
  {
    composed := 0;
    for i := 0 to |values|
      invariant composed == Value(values[..i], base) * Pow(base, |values| - i)
    {
      var pow := |values| - i - 1;
      ComposeStep(values, i, base);
      composed := composed + values[i] * Pow(base, pow);
    }
    assert values[..|values|] == values;
  }

  lemma ComposeStep(values: Path, i: nat, base: nat)
    requires i < |values|
    ensures Value(values[..i + 1], base) * Pow(base, |values| - i - 1)
         == Value(values[..i], base) * Pow(base, |values| - i) + values[i] * Pow(base, |values| - i - 1)
  {
    var w := Pow(base, |values| - i - 1);
    assert values[..i + 1] == values[..i] + [values[i]];
    ValueOfPush(values[..i], values[i], base);
    ScaledSum(Value(values[..i], base), values[i], base, w);
  }

  /** Composing undoes decomposing, and decomposing undoes composing. */
  lemma ComposeDecomposeRoundTrip(value: nat, values: Path, base: nat, nbDigits: nat)
    requires base >= 2 && value < Pow(base, nbDigits) && IsDigits(values, base)
    ensures Value(Digits(value, base, nbDigits), base) == value
    ensures Value(values, base) < Pow(base, |values|)
    ensures Digits(Value(values, base), base, |values|) == values
  {
    ValueOfDigits(value, base, nbDigits);
    ValueBound(values, base);
    DigitsOfValue(values, base);
  }

  /** Takes the common prefix off both digit strings. */
  method TakePrefix(start: Path, end: Path) returns (prefix: Path, start': Path, end': Path)
    requires |start| == |end|
    ensures start == prefix + start' && end == prefix + end'
    ensures start' != [] ==> start'[0] != end'[0]
  {
    if start == end {
      return start, [], [];
    }
    var i := 0;
    while start[i] == end[i]
      invariant 0 <= i < |start| && start[..i] == end[..i]
      invariant exists k :: i <= k < |start| && start[k] != end[k]
      decreases |start| - i
    {
      i := i + 1;
    }
    return end[..i], start[i..], end[i..];
  }

  /** Drops trailing digits equal to `toRemove`, keeping at least one digit. */
  method RemoveTail(v: Path, toRemove: nat) returns (r: Path)
    ensures IsTrimmed(v, r, toRemove)
  {
    r := v;
    while |r| > 1 && r[|r| - 1] == toRemove
      invariant |r| <= |v| && r == v[..|r|] && (v != [] ==> r != [])
      invariant forall i :: |r| <= i < |v| ==> v[i] == toRemove
    {
      r := r[..|r| - 1];
    }
  }

  predicate IsTrimmed(v: Path, r: Path, digit: nat) {
    && |r| <= |v| && r == v[..|r|]
    && (v != [] ==> r != [])
    && (forall i :: |r| <= i < |v| ==> v[i] == digit)
    && (|r| > 1 ==> r[|r| - 1] != digit)
  }

  lemma {:induction false} TrimZerosKeepsLo(v: Path, k: nat, base: nat, n: nat)
    requires base >= 1 && k <= |v| <= n && forall i :: k <= i < |v| ==> v[i] == 0
    ensures Lo(v[..k], base, n) == Lo(v, base, n)
    decreases |v| - k
  {
    if k < |v| {
      assert v[..k + 1] == v[..k] + [0];
      FirstAndLastChild(v[..k], base, n);
      TrimZerosKeepsLo(v, k + 1, base, n);
    } else {
      assert v[..k] == v;
    }
  }

  lemma {:induction false} TrimNinesKeepsHi(v: Path, k: nat, base: nat, n: nat)
    requires base >= 1 && k <= |v| <= n && forall i :: k <= i < |v| ==> v[i] == base - 1
    ensures Hi(v[..k], base, n) == Hi(v, base, n)
    decreases |v| - k
  {
    if k < |v| {
      assert v[..k + 1] == v[..k] + [base - 1];
      FirstAndLastChild(v[..k], base, n);
      TrimNinesKeepsHi(v, k + 1, base, n);
    } else {
      assert v[..k] == v;
    }
  }

  lemma PrefixInterval(p: Path, k: nat, base: nat, n: nat)
    requires IsPrefix(p, base, n) && k <= |p|
    ensures Lo(p[..k], base, n) <= Lo(p, base, n) && Hi(p, base, n) <= Hi(p[..k], base, n)
  {
    assert p == p[..k] + p[k..];
    IntervalNested(p[..k], p[k..], base, n);
  }

  lemma Increment(p: Path, base: nat, n: nat)
    requires 0 < |p| <= n && IsDigits(p, base) && p[|p| - 1] + 1 < base
    ensures var q := p[|p| - 1 := p[|p| - 1] + 1];
            IsDigits(q, base) && Lo(q, base, n) == Hi(p, base, n) && q[..|p| - 1] == p[..|p| - 1]
  {
    var parent, d := p[..|p| - 1], p[|p| - 1];
    assert p == parent + [d];
    assert p[|p| - 1 := d + 1] == parent + [d + 1];
    NextSibling(parent, d, base, n);
  }

  /** A cover under construction: it tiles the range [lo, hi) up to `pos`. */
  predicate Building(list: seq<Path>, base: nat, n: nat, lo: nat, pos: nat, hi: nat) {
    && Tiles(list, base, n, lo, pos)
    && AllMaximal(list, base, n, lo, hi)
    && (forall i :: 0 <= i < |list| ==> list[i] != [])
  }

  lemma BuildingPush(list: seq<Path>, p: Path, base: nat, n: nat, lo: nat, hi: nat)
    requires IsPrefix(p, base, n) && Building(list, base, n, lo, Lo(p, base, n), hi)
    requires p != [] && IsMaximal(p, base, n, lo, hi)
    ensures Building(list + [p], base, n, lo, Hi(p, base, n), hi)
  {
    TilesPush(list, p, base, n, lo);
  }

  /** Invariant of the first loop, which covers the outcomes that share the first
      digit `first` of the start of the range; `limit` is the first digit of its end. */
  predicate HeadInv(stack: Path, list: seq<Path>, base: nat, n: nat, lo: nat, hi: nat,
                    first: nat, limit: nat, trimmed: nat)
  {
    && 1 <= |stack| <= n && IsDigits(stack, base)
    && Building(list, base, n, lo, Lo(stack, base, n), hi)
    && (|stack| > 1 ==> stack[0] == first && Lo(stack[..|stack| - 1], base, n) < lo)
    && (|stack| == 1 ==> stack[0] <= limit)
    && HeadCount(|stack|, stack[|stack| - 1], |list|, base, n, trimmed)
  }

  predicate HeadCount(len: nat, digit: nat, count: nat, base: nat, n: nat, trimmed: nat) {
    && 1 <= len <= n && 1 <= base
    && (len > 1 ==> count + base - digit <= (n - len) * (base - 1) + base - 1 + (if digit == 0 then 1 else 0))
    && (len == 1 ==> count + (if digit == 0 && trimmed > 1 then 1 else 0) <= (n - 1) * (base - 1))
  }

  lemma HeadCountShorter(len: nat, digit: nat, count: nat, len': nat, digit': nat, count': nat,
                         base: nat, n: nat, trimmed: nat)
    requires base >= 2 && HeadCount(len, digit, count, base, n, trimmed) && 1 <= len' < len
    requires (digit == 0 && count' == count) || (digit == base - 1 && count' == count + 1)
    requires digit' > 0 || (digit == 0 && len' == 1)
    ensures HeadCount(len', digit', count', base, n, trimmed)
  {
    var w := base - 1;
    var a, b, c := (n - len) * w, (n - len') * w, (n - 1) * w;
    assert a + w <= b by {
      Distribute(n - len, 1, w);
      MulMonotone(n - len + 1, n - len', w);
    }
    assert b <= c by { MulMonotone(n - len', n - 1, w); }
    assert count + base - digit <= a + w + (if digit == 0 then 1 else 0);
    if len' > 1 {
      assert count' + base - digit' <= b + w;
    } else {
      assert b == c;
      assert count' + (if digit' == 0 && trimmed > 1 then 1 else 0) <= c;
    }
  }

  lemma HeadAdvance(stack: Path, list: seq<Path>, base: nat, n: nat, lo: nat, hi: nat,
                    first: nat, limit: nat, trimmed: nat)
    requires base >= 2 && HeadInv(stack, list, base, n, lo, hi, first, limit, trimmed) && |stack| > 1
    requires var d := stack[|stack| - 1]; d != base - 1 && d != 0
    ensures var i := |stack| - 1;
            HeadInv(stack[i := stack[i] + 1], list + [stack], base, n, lo, hi, first, limit, trimmed)
  {
    Increment(stack, base, n);
    BuildingPush(list, stack, base, n, lo, hi);
  }

  lemma HeadCarry(stack: Path, list: seq<Path>, q: Path, base: nat, n: nat, lo: nat, hi: nat,
                  first: nat, limit: nat, trimmed: nat)
    requires base >= 2 && HeadInv(stack, list, base, n, lo, hi, first, limit, trimmed) && |stack| > 1
    requires first < limit < base && stack[|stack| - 1] == base - 1
    requires IsTrimmed(stack[..|stack| - 1], q, base - 1)
    ensures var j := |q| - 1;
            q[j] + 1 < base && HeadInv(q[j := q[j] + 1], list + [stack], base, n, lo, hi, first, limit, trimmed)
  {
    var parent := stack[..|stack| - 1];
    assert stack == parent + [base - 1];
    BuildingPush(list, stack, base, n, lo, hi);
    FirstAndLastChild(parent, base, n);
    TrimNinesKeepsHi(parent, |q|, base, n);
    Increment(q, base, n);
    if |q| > 1 {
      PrefixInterval(parent, |q| - 1, base, n);
      assert q[..|q| - 1] == parent[..|q| - 1];
    }
    HeadCountShorter(|stack|, base - 1, |list|, |q|, q[|q| - 1] + 1, |list| + 1, base, n, trimmed);
  }

  lemma HeadTrim(stack: Path, list: seq<Path>, q: Path, base: nat, n: nat, lo: nat, hi: nat,
                 first: nat, limit: nat, trimmed: nat)
    requires base >= 2 && HeadInv(stack, list, base, n, lo, hi, first, limit, trimmed) && |stack| > 1
    requires first < limit && stack[|stack| - 1] == 0 && IsTrimmed(stack, q, 0)
    ensures |q| < |stack| && HeadInv(q, list, base, n, lo, hi, first, limit, trimmed)
  {
    TrimZerosKeepsLo(stack, |q|, base, n);
    var parent := stack[..|stack| - 1];
    if |q| > 1 {
      PrefixInterval(parent, |q| - 1, base, n);
      assert q[..|q| - 1] == parent[..|q| - 1];
    }
    HeadCountShorter(|stack|, 0, |list|, |q|, q[|q| - 1], |list|, base, n, trimmed);
  }

  /** Invariant of the last loop, which covers the outcomes that share the first
      digit of `de`, the trimmed end of the range. */
  predicate TailInv(stack: Path, de: Path, list: seq<Path>, base: nat, n: nat, lo: nat, hi: nat, before: nat) {
    && 1 <= |stack| <= |de| <= n && base >= 1 && IsDigits(stack, base)
    && stack[..|stack| - 1] == de[..|stack| - 1]
    && stack[|stack| - 1] <= de[|stack| - 1]
    && Building(list, base, n, lo, Lo(stack, base, n), hi)
    && (|stack| == 1 ==> stack[0] == de[0] && |list| == before)
    && (|stack| > 1 ==> |list| <= before + (|stack| - 2) * (base - 1) + stack[|stack| - 1])
  }

  lemma TailDescend(stack: Path, de: Path, list: seq<Path>, base: nat, n: nat, lo: nat, hi: nat, before: nat)
    requires base >= 2 && TailInv(stack, de, list, base, n, lo, hi, before)
    requires IsDigits(de, base) && stack != de && stack[|stack| - 1] == de[|stack| - 1]
    ensures |stack| < |de| && TailInv(stack + [0], de, list, base, n, lo, hi, before)
  {
    assert stack == stack[..|stack| - 1] + [de[|stack| - 1]] == de[..|stack|];
    FirstAndLastChild(stack, base, n);
    if |stack| > 1 {
      Distribute(|stack| - 2, 1, base - 1);
    }
  }

  lemma BeyondEnd(de: Path, k: nat, base: nat, n: nat)
    requires base >= 1 && IsPrefix(de, base, n) && k < |de| && de[|de| - 1] != base - 1
    ensures Hi(de, base, n) < Hi(de[..k], base, n)
  {
    Increment(de, base, n);
    var q := de[|de| - 1 := de[|de| - 1] + 1];
    IntervalNonempty(q, base, n);
    PrefixInterval(q, k, base, n);
    assert q[..k] == de[..k];
  }

  lemma TailAdvance(stack: Path, de: Path, list: seq<Path>, base: nat, n: nat, lo: nat, before: nat)
    requires base >= 2 && IsPrefix(de, base, n) && de != []
    requires |de| > 1 ==> de[|de| - 1] != base - 1
    requires TailInv(stack, de, list, base, n, lo, Hi(de, base, n), before)
    requires stack[|stack| - 1] != de[|stack| - 1]
    ensures var i := |stack| - 1;
            TailInv(stack[i := stack[i] + 1], de, list + [stack], base, n, lo, Hi(de, base, n), before)
  {
    Increment(stack, base, n);
    BeyondEnd(de, |stack| - 1, base, n);
    BuildingPush(list, stack, base, n, lo, Hi(de, base, n));
  }

  /** Putting the common prefix back in front of a cover of the remaining digits. */
  lemma {:induction false} PrependTiles(list: seq<Path>, full: seq<Path>, prefix: Path, base: nat, n: nat, lo: nat,
                                        pos: nat)
    requires IsPrefix(prefix, base, n)
    requires |full| == |list| && forall i :: 0 <= i < |list| ==> full[i] == prefix + list[i]
    requires Tiles(list, base, n - |prefix|, lo, pos)
    ensures Tiles(full, base, n, Lo(prefix, base, n) + lo, Lo(prefix, base, n) + pos)
  {
    if list != [] {
      var p, rest := list[|list| - 1], list[..|list| - 1];
      IntervalOfConcat(prefix, p, base, n);
      PrependTiles(rest, full[..|list| - 1], prefix, base, n, lo, Lo(p, base, n - |prefix|));
    }
  }

  lemma PrependMaximal(p: Path, prefix: Path, base: nat, n: nat, lo: nat, hi: nat)
    requires |prefix| + |p| <= n && p != [] && IsMaximal(p, base, n - |prefix|, lo, hi)
    ensures IsMaximal(prefix + p, base, n, Lo(prefix, base, n) + lo, Lo(prefix, base, n) + hi)
  {
    var parent := p[..|p| - 1];
    assert (prefix + p)[..|prefix + p| - 1] == prefix + parent;
    IntervalOfConcat(prefix, parent, base, n);
  }

  /** The trimmed ends of a range whose digits have no common prefix and which is
      not the whole of the `n`-digit outcomes. */
  predicate TrimmedEnds(ds: Path, de: Path, base: nat, n: nat) {
    && base >= 2 && IsPrefix(ds, base, n) && IsPrefix(de, base, n) && ds != [] && de != []
    && ds[0] < de[0]
    && (|ds| > 1 ==> ds[|ds| - 1] != 0)
    && (|de| > 1 ==> de[|de| - 1] != base - 1)
    && (0 < Lo(ds, base, n) || Hi(de, base, n) < Pow(base, n))
  }

  lemma BeforeStart(ds: Path, base: nat, n: nat)
    requires base >= 1 && IsPrefix(ds, base, n) && |ds| >= 1 && ds[|ds| - 1] != 0
    ensures Lo(ds[..|ds| - 1], base, n) < Lo(ds, base, n)
  {
    var parent, d := ds[..|ds| - 1], ds[|ds| - 1];
    assert ds == parent + [d];
    FirstAndLastChild(parent, base, n);
    IntervalOfConcat(parent, [d], base, n);
    IntervalOfConcat(parent, [0], base, n);
    assert Value([d], base) == d && Value([0], base) == 0 by {
      ValueOfPush([], d, base);
      ValueOfPush([], 0, base);
    }
  }

  lemma HeadStart(ds: Path, de: Path, base: nat, n: nat)
    requires TrimmedEnds(ds, de, base, n)
    ensures HeadInv(ds, [], base, n, Lo(ds, base, n), Hi(de, base, n), ds[0], de[0], |ds|)
  {
    MulMonotone(0, n - |ds|, base - 1);
    MulMonotone(0, n - 1, base - 1);
    assert HeadCount(|ds|, ds[|ds| - 1], 0, base, n, |ds|);
    if |ds| > 1 {
      BeforeStart(ds, base, n);
    }
  }

  lemma SingleDigitIsMaximal(d: nat, ds: Path, de: Path, base: nat, n: nat)
    requires TrimmedEnds(ds, de, base, n)
    ensures IsMaximal([d], base, n, Lo(ds, base, n), Hi(de, base, n))
  {
    assert [d][..0] == [];
    WholeSpace(base, n);
  }

  /** Invariant of the middle loop over single digits; `from` is the digit it starts at. */
  predicate MiddleInv(stack: Path, ds: Path, de: Path, list: seq<Path>, base: nat, n: nat, from: nat)
    requires TrimmedEnds(ds, de, base, n)
  {
    && |stack| == 1 && IsDigits(stack, base) && from <= stack[0] <= de[0]
    && Building(list, base, n, Lo(ds, base, n), Lo(stack, base, n), Hi(de, base, n))
    && |list| + (if from == 0 && |ds| > 1 then 1 else 0) <= (n - 1) * (base - 1) + stack[0] - from
    && (from == 0 && |ds| == 1 ==> ds == [0])
  }

  lemma NotWholeSpace(ds: Path, de: Path, base: nat, n: nat)
    requires TrimmedEnds(ds, de, base, n) && ds == [0]
    ensures de != [base - 1]
  {
    WholeSpace(base, n);
    FirstAndLastChild([], base, n);
    assert [] + [0] == ds && [] + [base - 1] == [base - 1];
  }

  lemma {:induction false} TailCount(count: nat, before: nat, len: nat, last: nat, from: nat, ds: Path, de: Path,
                                     base: nat, n: nat)
    requires TrimmedEnds(ds, de, base, n) && len == |de| && last == de[len - 1]
    requires before + (if from == 0 && |ds| > 1 then 1 else 0) <= (n - 1) * (base - 1) + de[0] - from
    requires from == 0 && |ds| == 1 ==> ds == [0]
    requires len == 1 ==> count == before
    requires len > 1 ==> count <= before + (len - 2) * (base - 1) + last
    ensures count + 1 <= (2 * n - 1) * (base - 1)
  {
    var w := base - 1;
    var c := (n - 1) * w;
    assert (2 * n - 1) * w == c + w + c by {
      Distribute(n - 1, 1, w);
      Distribute(n, n - 1, w);
    }
    if len > 1 {
      var a, b := (len - 2) * w, (len - 1) * w;
      assert b == a + w by { Distribute(len - 2, 1, w); }
      assert b <= c by { MulMonotone(len - 1, n - 1, w); }
    } else if from == 0 && |ds| == 1 && de[0] == base - 1 {
      NotWholeSpace(ds, de, base, n);
    }
  }

  /** First loop: from the start of the range up to the next first digit. */
  method CoverHead(ds: Path, de: Path, base: nat, ghost n: nat) returns (stack: Path, list: seq<Path>)
    requires TrimmedEnds(ds, de, base, n)
    ensures |stack| == 1 && MiddleInv(stack, ds, de, list, base, n, stack[0])
  {
    stack := ds;
    list := [];
    ghost var lo, hi := Lo(ds, base, n), Hi(de, base, n);
    HeadStart(ds, de, base, n);
    while |stack| != 1
      invariant HeadInv(stack, list, base, n, lo, hi, ds[0], de[0], |ds|)
      invariant |ds| == 1 ==> stack == ds
      decreases |stack|, base - stack[|stack| - 1]
    {
      var i := |stack| - 1;
      if stack[i] == base - 1 {
        ghost var was, wasList := stack, list;
        list := list + [stack];
        stack := stack[..i];
        stack := RemoveTail(stack, base - 1);
        HeadCarry(was, wasList, stack, base, n, lo, hi, ds[0], de[0], |ds|);
        var j := |stack| - 1;
        stack := stack[j := stack[j] + 1];
      } else if stack[i] == 0 {
        ghost var was := stack;
        stack := RemoveTail(stack, 0);
        HeadTrim(was, list, stack, base, n, lo, hi, ds[0], de[0], |ds|);
      } else {
        HeadAdvance(stack, list, base, n, lo, hi, ds[0], de[0], |ds|);
        list := list + [stack];
        stack := stack[i := stack[i] + 1];
      }
    }
  }

  /** Second loop: the first digits whose whole interval is in the range. */
  method CoverMiddle(stack0: Path, list0: seq<Path>, ds: Path, de: Path, base: nat, ghost n: nat, ghost from: nat)
    returns (stack: Path, list: seq<Path>)
    requires TrimmedEnds(ds, de, base, n) && MiddleInv(stack0, ds, de, list0, base, n, from)
    ensures MiddleInv(stack, ds, de, list, base, n, from) && stack[0] == de[0]
  {
    stack, list := stack0, list0;
    while stack[0] != de[0]
      invariant MiddleInv(stack, ds, de, list, base, n, from)
      decreases de[0] - stack[0]
    {
      SingleDigitIsMaximal(stack[0], ds, de, base, n);
      Increment(stack, base, n);
      BuildingPush(list, stack, base, n, Lo(ds, base, n), Hi(de, base, n));
      list := list + [stack];
      stack := stack[0 := stack[0] + 1];
    }
  }

  /** Third loop: from the first outcome with the end's first digit to the end. */
  method CoverTail(stack0: Path, list0: seq<Path>, ds: Path, de: Path, base: nat, ghost n: nat)
    returns (list: seq<Path>)
    requires TrimmedEnds(ds, de, base, n) && |stack0| == 1 && stack0[0] == de[0]
    requires Building(list0, base, n, Lo(ds, base, n), Lo(stack0, base, n), Hi(de, base, n))
    ensures Building(list, base, n, Lo(ds, base, n), Lo(de, base, n), Hi(de, base, n))
    ensures |de| == 1 ==> |list| == |list0|
    ensures |de| > 1 ==> |list| <= |list0| + (|de| - 2) * (base - 1) + de[|de| - 1]
  {
    var stack := stack0;
    list := list0;
    ghost var lo, hi := Lo(ds, base, n), Hi(de, base, n);
    while stack != de
      invariant TailInv(stack, de, list, base, n, lo, hi, |list0|)
      decreases |de| - |stack|, de[|stack| - 1] - stack[|stack| - 1]
    {
      var i := |stack| - 1;
      if stack[i] == de[i] {
        TailDescend(stack, de, list, base, n, lo, hi, |list0|);
        stack := stack + [0];
      } else {
        TailAdvance(stack, de, list, base, n, lo, |list0|);
        list := list + [stack];
        stack := stack[i := stack[i] + 1];
      }
    }
  }

  lemma IncludeEnd(list: seq<Path>, ds: Path, de: Path, base: nat, n: nat)
    requires TrimmedEnds(ds, de, base, n)
    requires Building(list, base, n, Lo(ds, base, n), Lo(de, base, n), Hi(de, base, n))
    ensures Building(list + [de], base, n, Lo(ds, base, n), Hi(de, base, n), Hi(de, base, n))
  {
    if |de| > 1 {
      BeyondEnd(de, |de| - 1, base, n);
    } else {
      SingleDigitIsMaximal(de[0], ds, de, base, n);
    }
    BuildingPush(list, de, base, n, Lo(ds, base, n), Hi(de, base, n));
  }

  /** The three loops, followed by the end of the range itself. */
  method CoverBetween(ds: Path, de: Path, base: nat, ghost n: nat) returns (list: seq<Path>)
    requires TrimmedEnds(ds, de, base, n)
    ensures Building(list, base, n, Lo(ds, base, n), Hi(de, base, n), Hi(de, base, n))
    ensures |list| <= (2 * n - 1) * (base - 1)
  {
    var stack;
    stack, list := CoverHead(ds, de, base, n);
    ghost var from := stack[0];
    stack, list := CoverMiddle(stack, list, ds, de, base, n, from);
    ghost var before := |list|;
    list := CoverTail(stack, list, ds, de, base, n);
    TailCount(|list|, before, |de|, de[|de| - 1], from, ds, de, base, n);
    IncludeEnd(list, ds, de, base, n);
    list := list + [de];
  }

  predicate AllAre(s: Path, digit: nat) {
    forall i :: 0 <= i < |s| ==> s[i] == digit
  }

  lemma {:induction false} ZeroMeansZeros(s: Path, base: nat)
    requires base >= 1 && Value(s, base) == 0
    ensures AllAre(s, 0)
  {
    if s != [] {
      var head := s[..|s| - 1];
      MulMonotone(1, base, Value(head, base));
      ZeroMeansZeros(head, base);
      assert s == head + [s[|s| - 1]];
    }
  }

  lemma {:induction false} MaximumMeansNines(s: Path, base: nat)
    requires base >= 1 && IsDigits(s, base) && Value(s, base) + 1 == Pow(base, |s|)
    ensures AllAre(s, base - 1)
  {
    if s != [] {
      var head, d := s[..|s| - 1], s[|s| - 1];
      ValueBound(head, base);
      LargestBlock(Value(head, base), d, base, Pow(base, |head|));
      MaximumMeansNines(head, base);
      assert s == head + [d];
    }
  }

  lemma LargestBlock(v: nat, d: nat, base: nat, w: nat)
    requires v < w && d < base && v * base + d + 1 == base * w
    ensures v + 1 == w && d == base - 1
  {
    Distribute(v, 1, base);
    Distribute(v, 2, base);
    if v + 1 < w {
      MulMonotone(v + 2, w, base);
    }
  }

  lemma FirstDigitsOrdered(s: Path, t: Path, base: nat)
    requires |s| == |t| && s != [] && IsDigits(s, base) && IsDigits(t, base)
    requires Value(s, base) <= Value(t, base) && s[0] != t[0]
    ensures s[0] < t[0]
  {
    var n := |s|;
    FirstDigitInterval(s, base);
    FirstDigitInterval(t, base);
    if t[0] < s[0] {
      MulMonotone(t[0] + 1, s[0], Pow(base, n - 1));
    }
  }

  lemma FirstDigitInterval(s: Path, base: nat)
    requires s != [] && IsDigits(s, base)
    ensures s[0] * Pow(base, |s| - 1) <= Value(s, base) < (s[0] + 1) * Pow(base, |s| - 1)
  {
    assert s == [s[0]] + s[1..];
    ValueConcat([s[0]], s[1..], base);
    ValueBound(s[1..], base);
    ValueOfPush([], s[0], base);
    assert [] + [s[0]] == [s[0]];
    Distribute(s[0], 1, Pow(base, |s| - 1));
  }

  /** The single prefix is the answer when it stands for the whole range. */
  lemma PrefixAlone(prefix: Path, ds: Path, de: Path, base: nat, start: nat, end: nat)
    requires var n := |prefix + ds|;
             base >= 2 && end < Pow(base, n) && start < Pow(base, n) && |ds| == |de|
             && prefix + ds == Digits(start, base, n) && prefix + de == Digits(end, base, n)
    requires AllAre(ds, 0) && AllAre(de, base - 1)
    ensures Tiles([prefix], base, |prefix + ds|, start, end + 1)
    ensures AllMaximal([prefix], base, |prefix + ds|, start, end + 1)
  {
    var n := |prefix + ds|;
    assert (prefix + ds)[..|prefix|] == prefix == (prefix + de)[..|prefix|];
    assert Lo(prefix, base, n) == start by {
      ValueOfDigits(start, base, n);
      FullLengthInterval(prefix + ds, base);
      TrimZerosKeepsLo(prefix + ds, |prefix|, base, n);
    }
    assert Hi(prefix, base, n) == end + 1 by {
      ValueOfDigits(end, base, n);
      FullLengthInterval(prefix + de, base);
      TrimNinesKeepsHi(prefix + de, |prefix|, base, n);
    }
    assert IsDigits(prefix, base) by {
      assert forall i :: 0 <= i < |prefix| ==> prefix[i] == (prefix + ds)[i];
    }
    TilesPush([], prefix, base, n, start);
    assert [] + [prefix] == [prefix];
    WholeIntervalIsMaximal(prefix, base, n);
  }

  lemma WholeIntervalIsMaximal(prefix: Path, base: nat, n: nat)
    requires base >= 2 && IsPrefix(prefix, base, n)
    ensures IsMaximal(prefix, base, n, Lo(prefix, base, n), Hi(prefix, base, n))
  {
    if prefix != [] {
      if prefix[|prefix| - 1] != 0 {
        BeforeStart(prefix, base, n);
      } else {
        BeyondEnd(prefix, |prefix| - 1, base, n);
      }
    }
  }

  /** What taking the common prefix off leaves to be covered. */
  lemma SplitRange(prefix: Path, fullStart: Path, fullEnd: Path, ds: Path, de: Path, base: nat, start: nat, end: nat)
    requires var n := |prefix + fullStart|;
             base >= 2 && start <= end < Pow(base, n) && |fullStart| == |fullEnd|
             && prefix + fullStart == Digits(start, base, n) && prefix + fullEnd == Digits(end, base, n)
    requires fullStart != [] && fullStart[0] != fullEnd[0]
    requires IsTrimmed(fullStart, ds, 0) && IsTrimmed(fullEnd, de, base - 1)
    requires !AllAre(fullStart, 0) || !AllAre(fullEnd, base - 1)
    ensures IsPrefix(prefix, base, |prefix + fullStart|)
    ensures TrimmedEnds(ds, de, base, |fullStart|)
    ensures var off := Lo(prefix, base, |prefix + fullStart|);
            start == off + Lo(ds, base, |fullStart|) && end + 1 == off + Hi(de, base, |fullStart|)
  {
    var n, m := |prefix + fullStart|, |fullStart|;
    assert IsDigits(prefix, base) && IsDigits(fullStart, base) by {
      assert forall i :: 0 <= i < |prefix| ==> prefix[i] == (prefix + fullStart)[i];
      assert forall i :: 0 <= i < m ==> fullStart[i] == (prefix + fullStart)[|prefix| + i];
    }
    assert IsDigits(fullEnd, base) by {
      assert forall i :: 0 <= i < m ==> fullEnd[i] == (prefix + fullEnd)[|prefix| + i];
    }
    var off := Lo(prefix, base, n);
    assert start == off + Lo(ds, base, m) && Lo(ds, base, m) == Value(fullStart, base) by {
      ValueOfDigits(start, base, n);
      FullLengthInterval(prefix + fullStart, base);
      IntervalOfConcat(prefix, fullStart, base, n);
      FullLengthInterval(fullStart, base);
      TrimZerosKeepsLo(fullStart, |ds|, base, m);
    }
    assert end + 1 == off + Hi(de, base, m) && Hi(de, base, m) == Value(fullEnd, base) + 1 by {
      ValueOfDigits(end, base, n);
      FullLengthInterval(prefix + fullEnd, base);
      IntervalOfConcat(prefix, fullEnd, base, n);
      FullLengthInterval(fullEnd, base);
      TrimNinesKeepsHi(fullEnd, |de|, base, m);
    }
    FirstDigitsOrdered(fullStart, fullEnd, base);
    ValueBound(fullEnd, base);
    if Value(fullStart, base) == 0 {
      ZeroMeansZeros(fullStart, base);
    }
    if Value(fullEnd, base) + 1 == Pow(base, m) {
      MaximumMeansNines(fullEnd, base);
    }
  }

  lemma AtLeastOne(base: nat, n: nat)
    requires base >= 2
    ensures n >= 1 ==> 1 <= (2 * n - 1) * (base - 1)
  {
    if n >= 1 {
      MulMonotone(1, 2 * n - 1, base - 1);
    }
  }

  lemma Prepended(list: seq<Path>, groups: seq<Path>, prefix: Path, base: nat, n: nat, m: nat, lo: nat, hi: nat,
                  start: nat, end: nat)
    requires base >= 2 && IsPrefix(prefix, base, n) && n == |prefix| + m
    requires Building(list, base, m, lo, hi, hi) && |list| <= (2 * m - 1) * (base - 1)
    requires |groups| == |list| && forall i :: 0 <= i < |list| ==> groups[i] == prefix + list[i]
    requires start == Lo(prefix, base, n) + lo && end + 1 == Lo(prefix, base, n) + hi
    ensures Tiles(groups, base, n, start, end + 1)
    ensures AllMaximal(groups, base, n, start, end + 1)
    ensures |groups| <= (2 * n - 1) * (base - 1)
  {
    PrependTiles(list, groups, prefix, base, n, lo, hi);
    forall i | 0 <= i < |groups| ensures |groups[i]| <= n && IsMaximal(groups[i], base, n, start, end + 1) {
      PrependMaximal(list[i], prefix, base, n, lo, hi);
    }
    MulMonotone(2 * m - 1, 2 * n - 1, base - 1);
  }

  /** The range whose two ends have the given common prefix and remaining digits. */
  predicate SplitsInto(start: nat, end: nat, prefix: Path, ds: Path, de: Path, base: nat, n: nat)
    requires base >= 2
  {
    && start <= end < Pow(base, n) && |prefix| + |ds| == n && |ds| == |de|
    && prefix + ds == Digits(start, base, n) && prefix + de == Digits(end, base, n)
    && (ds != [] ==> ds[0] != de[0])
  }

  method CoverRemaining(prefix: Path, ds0: Path, de0: Path, base: nat, nbDigits: nat, ghost start: nat, ghost end: nat)
    returns (groups: seq<Path>)
    requires base >= 2 && SplitsInto(start, end, prefix, ds0, de0, base, nbDigits)
    requires ds0 != [] && (!AllAre(ds0, 0) || !AllAre(de0, base - 1))
    ensures Tiles(groups, base, nbDigits, start, end + 1)
    ensures AllMaximal(groups, base, nbDigits, start, end + 1)
    ensures |groups| <= (2 * nbDigits - 1) * (base - 1)
  {
    // Trailing zeros of the start and trailing largest digits of the end are
    // covered by the digits in front of them.
    var ds := RemoveTail(ds0, 0);
    var de := RemoveTail(de0, base - 1);
    SplitRange(prefix, ds0, de0, ds, de, base, start, end);
    var list := CoverBetween(ds, de, base, |ds0|);
    groups := if prefix != [] then seq(|list|, i requires 0 <= i < |list| => prefix + list[i]) else list;
    Prepended(list, groups, prefix, base, nbDigits, |ds0|, Lo(ds, base, |ds0|), Hi(de, base, |ds0|), start, end);
  }

  /** The prefixes that cover the outcomes start to end, in order: an exact cover
      without overlap, with as few prefixes as any cover of that range has. */
  method GroupByIgnoringDigits(start: nat, end: nat, base: nat, nbDigits: nat) returns (groups: seq<Path>)
    requires base >= 2 && start <= end < Pow(base, nbDigits)
    ensures Tiles(groups, base, nbDigits, start, end + 1)
    ensures CoversExactly(groups, base, nbDigits, start, end)
    ensures PairwiseDisjoint(groups, base, nbDigits)
    ensures IsSmallestCover(groups, base, nbDigits, start, end)
    ensures nbDigits >= 1 ==> |groups| <= (2 * nbDigits - 1) * (base - 1)
  {
    var ds := DecomposeValue(start, base, nbDigits);
    var de := DecomposeValue(end, base, nbDigits);

    var prefix;
    prefix, ds, de := TakePrefix(ds, de);

    if (ds == [] && de == []) || (AllAre(ds, 0) && AllAre(de, base - 1)) {
      PrefixAlone(prefix, ds, de, base, start, end);
      AtLeastOne(base, nbDigits);
      groups := [prefix];
    } else {
      groups := CoverRemaining(prefix, ds, de, base, nbDigits, start, end);
    }
    MaximalTilingIsBest(groups, base, nbDigits, start, end);
  }
}
