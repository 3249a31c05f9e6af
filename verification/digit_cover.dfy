/** What it means for a list of digit prefixes to cover a range of outcomes,
    and why a tiling by maximal prefixes is a smallest possible cover. */
module DigitCover {
  import opened Positional

  predicate IsPrefix(p: Path, base: nat, n: nat) {
    |p| <= n && IsDigits(p, base)
  }

  /** The digits of outcome `x` start with `p`. */
  predicate Matches(p: Path, x: nat, base: nat, n: nat)
    requires base >= 2
  {
    p <= Digits(x, base, n)
  }

  predicate Covers(list: seq<Path>, x: nat, base: nat, n: nat)
    requires base >= 2
  {
    exists i :: 0 <= i < |list| && Matches(list[i], x, base, n)
  }

  /** The prefixes' intervals are adjacent, in order, and fill [lo, hi). */
  predicate Tiles(list: seq<Path>, base: nat, n: nat, lo: nat, hi: nat) {
    if list == [] then lo == hi
    else
      var p := list[|list| - 1];
      && IsPrefix(p, base, n)
      && Hi(p, base, n) == hi
      && Tiles(list[..|list| - 1], base, n, lo, Lo(p, base, n))
  }

  /** Dropping a digit of `p` would leave the range [lo, hi). */
  predicate IsMaximal(p: Path, base: nat, n: nat, lo: nat, hi: nat)
    requires |p| <= n
  {
    p != [] ==>
      var parent := p[..|p| - 1];
      Lo(parent, base, n) < lo || hi < Hi(parent, base, n)
  }

  predicate AllMaximal(list: seq<Path>, base: nat, n: nat, lo: nat, hi: nat) {
    forall i :: 0 <= i < |list| ==> |list[i]| <= n && IsMaximal(list[i], base, n, lo, hi)
  }

  /** An outcome is in [start, end] exactly when its digits extend a listed prefix. */
  ghost predicate CoversExactly(list: seq<Path>, base: nat, n: nat, start: nat, end: nat)
    requires base >= 2
  {
    && (forall i :: 0 <= i < |list| ==> IsPrefix(list[i], base, n))
    && (forall x: nat | x < Pow(base, n) ::
          start <= x <= end <==> Covers(list, x, base, n))
  }

  /** No outcome's digits extend two of the listed prefixes. */
  ghost predicate PairwiseDisjoint(list: seq<Path>, base: nat, n: nat)
    requires base >= 2
  {
    forall x: nat, i, j ::
      x < Pow(base, n) && 0 <= i < j < |list| && Matches(list[i], x, base, n)
      ==> !(Matches(list[j], x, base, n))
  }

  ghost predicate IsSmallestCover(list: seq<Path>, base: nat, n: nat, start: nat, end: nat)
    requires base >= 2
  {
    forall other: seq<Path> | CoversExactly(other, base, n, start, end) :: |list| <= |other|
  }

  lemma TilesPush(list: seq<Path>, p: Path, base: nat, n: nat, lo: nat)
    requires IsPrefix(p, base, n) && Tiles(list, base, n, lo, Lo(p, base, n))
    ensures Tiles(list + [p], base, n, lo, Hi(p, base, n))
  {
    assert (list + [p])[..|list|] == list;
  }

  lemma {:induction false} TilesBounds(list: seq<Path>, i: nat, base: nat, n: nat, lo: nat, hi: nat)
    requires base >= 1 && Tiles(list, base, n, lo, hi) && i < |list|
    ensures IsPrefix(list[i], base, n)
    ensures lo <= Lo(list[i], base, n) < Hi(list[i], base, n) <= hi
  {
    var last, rest := list[|list| - 1], list[..|list| - 1];
    IntervalNonempty(last, base, n);
    if i < |rest| {
      TilesBounds(rest, i, base, n, lo, Lo(last, base, n));
      assert rest[i] == list[i];
    } else if rest != [] {
      TilesBounds(rest, 0, base, n, lo, Lo(last, base, n));
    }
  }

  lemma {:induction false} TilesOrdered(list: seq<Path>, i: nat, j: nat, base: nat, n: nat, lo: nat, hi: nat)
    requires base >= 1 && Tiles(list, base, n, lo, hi) && i < j < |list|
    ensures IsPrefix(list[i], base, n) && IsPrefix(list[j], base, n)
    ensures Hi(list[i], base, n) <= Lo(list[j], base, n)
  {
    var last, rest := list[|list| - 1], list[..|list| - 1];
    assert rest[i] == list[i];
    TilesBounds(list, j, base, n, lo, hi);
    if j < |rest| {
      TilesOrdered(rest, i, j, base, n, lo, Lo(last, base, n));
      assert rest[j] == list[j];
    } else {
      TilesBounds(rest, i, base, n, lo, Lo(last, base, n));
    }
  }

  lemma {:induction false} TilesLocate(list: seq<Path>, x: nat, base: nat, n: nat, lo: nat, hi: nat) returns (i: nat)
    requires base >= 1 && Tiles(list, base, n, lo, hi) && lo <= x < hi
    ensures i < |list| && IsPrefix(list[i], base, n)
    ensures Lo(list[i], base, n) <= x < Hi(list[i], base, n)
  {
    var last := list[|list| - 1];
    if Lo(last, base, n) <= x {
      i := |list| - 1;
    } else {
      i := TilesLocate(list[..|list| - 1], x, base, n, lo, Lo(last, base, n));
    }
  }

  /** Adjacent intervals give an exact cover in which no two prefixes overlap. */
  lemma TilesCoverExactly(list: seq<Path>, base: nat, n: nat, start: nat, end: nat)
    requires base >= 2 && Tiles(list, base, n, start, end + 1)
    ensures CoversExactly(list, base, n, start, end)
    ensures PairwiseDisjoint(list, base, n)
  {
    forall i | 0 <= i < |list| ensures IsPrefix(list[i], base, n) {
      TilesBounds(list, i, base, n, start, end + 1);
    }
    forall x: nat | x < Pow(base, n)
      ensures start <= x <= end <==> Covers(list, x, base, n)
    {
      if start <= x <= end {
        var i := TilesLocate(list, x, base, n, start, end + 1);
        ExtendsIffInside(list[i], x, base, n);
      }
      forall i | 0 <= i < |list| && Matches(list[i], x, base, n) ensures start <= x <= end {
        TilesBounds(list, i, base, n, start, end + 1);
        ExtendsIffInside(list[i], x, base, n);
      }
    }
    forall x: nat, i, j | x < Pow(base, n) && 0 <= i < j < |list| && Matches(list[i], x, base, n)
      ensures !(Matches(list[j], x, base, n))
    {
      TilesOrdered(list, i, j, base, n, start, end + 1);
      ExtendsIffInside(list[i], x, base, n);
      ExtendsIffInside(list[j], x, base, n);
    }
  }

  lemma {:induction false} Pigeonhole(f: seq<nat>, bound: nat)
    requires forall i :: 0 <= i < |f| ==> f[i] < bound
    requires forall i, j :: 0 <= i < j < |f| ==> f[i] != f[j]
    ensures |f| <= bound
    decreases bound
  {
    if f != [] {
      var last, rest := f[|f| - 1], f[..|f| - 1];
      // Move the values above `last` down by one, which frees the value `bound - 1`.
      var g := seq(|rest|, i requires 0 <= i < |rest| => if rest[i] > last then rest[i] - 1 else rest[i]);
      assert forall i :: 0 <= i < |rest| ==> rest[i] == f[i] && f[i] != last;
      assert forall i :: 0 <= i < |g| ==> g[i] < bound - 1;
      Pigeonhole(g, bound - 1);
    }
  }

  lemma WholeIntervalInside(q: Path, base: nat, n: nat, start: nat, end: nat)
    requires base >= 2 && IsPrefix(q, base, n)
    requires forall y: nat | y < Pow(base, n) && Matches(q, y, base, n) :: start <= y <= end
    ensures start <= Lo(q, base, n) && Hi(q, base, n) <= end + 1
  {
    IntervalNonempty(q, base, n);
    IntervalBounded(q, base, n);
    var first, last := Lo(q, base, n), Hi(q, base, n) - 1;
    ExtendsIffInside(q, first, base, n);
    ExtendsIffInside(q, last, base, n);
    assert Matches(q, first, base, n) && Matches(q, last, base, n);
  }

  /** A prefix of another cover that meets a maximal prefix extends it. */
  lemma MeetsMaximal(p: Path, q: Path, x: nat, base: nat, n: nat, start: nat, end: nat)
    requires base >= 2 && x < Pow(base, n) && end < Pow(base, n)
    requires IsPrefix(p, base, n) && IsPrefix(q, base, n)
    requires IsMaximal(p, base, n, start, end + 1)
    requires Matches(p, x, base, n) && Matches(q, x, base, n)
    requires forall y: nat | y < Pow(base, n) && Matches(q, y, base, n) :: start <= y <= end
    ensures p <= q
  {
    if |q| < |p| {
      var parent := p[..|p| - 1];
      var rest := parent[|q|..];
      assert parent == q + rest;
      IntervalNested(q, rest, base, n);
      WholeIntervalInside(q, base, n, start, end);
      assert false;
    }
  }

  /** Choosing, for each tile, a prefix of the other cover that holds the tile's
      first outcome never chooses the same prefix twice. */
  lemma {:induction false} MaximalTilesAreSmallest(list: seq<Path>, other: seq<Path>, base: nat, n: nat, start: nat,
                                                   end: nat)
    requires base >= 2 && end < Pow(base, n)
    requires Tiles(list, base, n, start, end + 1) && AllMaximal(list, base, n, start, end + 1)
    requires CoversExactly(other, base, n, start, end)
    ensures |list| <= |other|
  {
    var f := ChooseMeeting(list, other, |list|, base, n, start, end);
    forall i, j | 0 <= i < j < |f| ensures f[i] != f[j] {
      if f[i] == f[j] {
        var q := other[f[i]];
        IntervalNonempty(q, base, n);
        IntervalBounded(q, base, n);
        ExtendsIffInside(q, Lo(q, base, n), base, n);
        assert Matches(list[i], Lo(q, base, n), base, n);
        assert Matches(list[j], Lo(q, base, n), base, n);
        TilesCoverExactly(list, base, n, start, end);
      }
    }
    Pigeonhole(f, |other|);
  }

  lemma Meeting(p: Path, other: seq<Path>, base: nat, n: nat, start: nat, end: nat) returns (j: nat)
    requires base >= 2 && end < Pow(base, n) && IsPrefix(p, base, n)
    requires start <= Lo(p, base, n) < Hi(p, base, n) <= end + 1
    requires IsMaximal(p, base, n, start, end + 1)
    requires CoversExactly(other, base, n, start, end)
    ensures j < |other| && p <= other[j]
  {
    var x := Lo(p, base, n);
    ExtendsIffInside(p, x, base, n);
    assert Covers(other, x, base, n);
    j :| 0 <= j < |other| && Matches(other[j], x, base, n);
    forall y: nat | y < Pow(base, n) && Matches(other[j], y, base, n) ensures start <= y <= end {
      assert Covers(other, y, base, n);
    }
    MeetsMaximal(p, other[j], x, base, n, start, end);
  }

  lemma {:induction false} ChooseMeeting(list: seq<Path>, other: seq<Path>, k: nat, base: nat, n: nat, start: nat,
                                         end: nat)
    returns (f: seq<nat>)
    requires base >= 2 && end < Pow(base, n) && k <= |list|
    requires Tiles(list, base, n, start, end + 1) && AllMaximal(list, base, n, start, end + 1)
    requires CoversExactly(other, base, n, start, end)
    ensures |f| == k
    ensures forall i :: 0 <= i < k ==> f[i] < |other| && list[i] <= other[f[i]]
  {
    if k == 0 {
      f := [];
    } else {
      f := ChooseMeeting(list, other, k - 1, base, n, start, end);
      TilesBounds(list, k - 1, base, n, start, end + 1);
      var j := Meeting(list[k - 1], other, base, n, start, end);
      f := f + [j];
    }
  }

  /** A tiling by maximal prefixes is an exact, overlap-free and smallest cover. */
  lemma MaximalTilingIsBest(list: seq<Path>, base: nat, n: nat, start: nat, end: nat)
    requires base >= 2 && end < Pow(base, n)
    requires Tiles(list, base, n, start, end + 1) && AllMaximal(list, base, n, start, end + 1)
    ensures CoversExactly(list, base, n, start, end)
    ensures PairwiseDisjoint(list, base, n)
    ensures IsSmallestCover(list, base, n, start, end)
  {
    TilesCoverExactly(list, base, n, start, end);
    forall other: seq<Path> | CoversExactly(other, base, n, start, end) ensures |list| <= |other| {
      MaximalTilesAreSmallest(list, other, base, n, start, end);
    }
  }
}
