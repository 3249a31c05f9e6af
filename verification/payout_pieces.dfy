/** Properties of the two shortcuts for pieces with two points: the straight line
    and the constant. */
module PayoutPieces {

  import opened Results
  import opened PayoutRounding
  import opened PayoutCurve
  import opened PayoutRanges
  import Positional

  // ---- The straight line ----

  /** A line between payouts that stay within the total, rounded by one modulus throughout. */
  ghost predicate LinearWithin(p: Piece, terms: Terms, modulus: nat) {
    && p.Polynomial? && |p.points| == 2 && !IsConstant(p)
    && p.points[0].outcomePayout <= terms.totalCollateral && p.points[1].outcomePayout <= terms.totalCollateral
    && terms.totalCollateral <= U64_MAX
    && modulus > 0 && UsableIntervals(terms.roundingIntervals)
    && forall x: nat | First(p) <= x <= Last(p) :: ModulusAt(terms.roundingIntervals, x) == modulus
  }

  predicate Rising(p: Piece)
    requires p.Polynomial? && |p.points| == 2
  {
    p.points[0].outcomePayout < p.points[1].outcomePayout
  }

  lemma QuotientSign(x: real, y: real)
    requires y > 0.0
    ensures (x >= 0.0 ==> x / y >= 0.0) && (x <= 0.0 ==> x / y <= 0.0) && y * (x / y) == x
  {
  }

  lemma ProductMonotone(x: real, y: real, m: real)
    requires x <= y
    ensures m >= 0.0 ==> x * m <= y * m
    ensures m <= 0.0 ==> x * m >= y * m
  {
  }

  /** The line runs monotonically from one payout to the other. */
  lemma LineMonotone(l: PayoutPoint, r: PayoutPoint, x: nat, y: nat)
    requires l.eventOutcome < r.eventOutcome && x <= y
    ensures l.outcomePayout <= r.outcomePayout ==> Line(l, r, x) <= Line(l, r, y)
    ensures l.outcomePayout >= r.outcomePayout ==> Line(l, r, x) >= Line(l, r, y)
  {
    QuotientSign(r.outcomePayout as real - l.outcomePayout as real, r.eventOutcome as real - l.eventOutcome as real);
    ProductMonotone(x as real - l.eventOutcome as real, y as real - l.eventOutcome as real, Slope(l, r));
  }

  lemma LineEnds(l: PayoutPoint, r: PayoutPoint)
    requires l.eventOutcome < r.eventOutcome
    ensures Line(l, r, l.eventOutcome) == l.outcomePayout as real
    ensures Line(l, r, r.eventOutcome) == r.outcomePayout as real
  {
    QuotientSign(r.outcomePayout as real - l.outcomePayout as real, r.eventOutcome as real - l.eventOutcome as real);
    TimesUnit(Slope(l, r), 0.0);
  }

  lemma LineWithin(p: Piece, terms: Terms, modulus: nat, x: nat)
    requires LinearWithin(p, terms, modulus) && First(p) <= x <= Last(p)
    ensures Evaluate(p, x, terms.sqrt) == Some(Line(p.points[0], p.points[1], x))
    ensures 0.0 <= Line(p.points[0], p.points[1], x) <= terms.totalCollateral as real
  {
    var l, r := p.points[0], p.points[1];
    LineMonotone(l, r, First(p), x);
    LineMonotone(l, r, x, Last(p));
    LineEnds(l, r);
  }

  /** What is paid for an unrounded payout within the total. */
  function Paid(payout: real, modulus: nat, total: nat): nat
    requires modulus > 0
  {
    Min(ToU64(RoundToModulus(payout, modulus)), total)
  }

  lemma LinearNeverFails(p: Piece, terms: Terms, modulus: nat, x: nat)
    requires LinearWithin(p, terms, modulus) && First(p) <= x <= Last(p)
    ensures RoundedPayout(p, x, terms) == Ok(Paid(Line(p.points[0], p.points[1], x), modulus, terms.totalCollateral))
  {
    LineWithin(p, terms, modulus, x);
    RoundWhole(terms.totalCollateral);
  }

  lemma PaidMonotone(x: real, y: real, modulus: nat, total: nat)
    requires modulus > 0 && 0.0 <= x <= y
    ensures Paid(x, modulus, total) <= Paid(y, modulus, total)
  {
    RoundMonotone(x, y, modulus);
  }

  /** The paid amounts in increasing order: the multiples of the modulus, then the total. */
  function Rank(v: nat, modulus: nat, total: nat): nat
    requires modulus > 0
  {
    if v == total then Positional.Quotient(total, modulus) + 1 else Positional.Quotient(v, modulus)
  }

  lemma {:induction false} QuotientOfMultiple(m: nat, k: nat, v: nat)
    requires m > 0 && m * k <= v < m * k + m
    ensures Positional.Quotient(v, m) == k
  {
    if k > 0 {
      NextMultiple(m, k - 1);
      MultiplesOrdered(m, 0, k - 1);
      QuotientOfMultiple(m, k - 1, v - m);
    } else {
      assert m * 0 == 0;
    }
  }

  lemma {:induction false} QuotientMonotone(v: nat, w: nat, m: nat)
    requires m > 0 && v <= w
    ensures Positional.Quotient(v, m) <= Positional.Quotient(w, m)
    decreases v
  {
    if v >= m {
      QuotientMonotone(v - m, w - m, m);
    }
  }

  lemma {:induction false} RankIsStrict(x: real, y: real, modulus: nat, total: nat)
    requires modulus > 0 && x >= 0.0 && y >= 0.0 && total <= U64_MAX
    requires Paid(x, modulus, total) < Paid(y, modulus, total)
    ensures Rank(Paid(x, modulus, total), modulus, total) < Rank(Paid(y, modulus, total), modulus, total)
    ensures Rank(Paid(y, modulus, total), modulus, total) <= Positional.Quotient(total, modulus) + 1
  {
    var k := RoundsToNearest(x, modulus);
    var l := RoundsToNearest(y, modulus);
    MultiplesOrdered(modulus, l, k);
    MultiplesOrdered(modulus, 0, k);
    MultiplesOrdered(modulus, 0, l);
    var v, w := Paid(x, modulus, total), Paid(y, modulus, total);
    assert v == modulus * k;
    QuotientOfMultiple(modulus, k, v);
    QuotientMonotone(v, total, modulus);
    if w < total {
      assert w == modulus * l;
      QuotientOfMultiple(modulus, l, w);
      QuotientMonotone(w, total, modulus);
      MultiplesOrdered(modulus, l, k);
    }
  }

  /** The offers go strictly up, or strictly down. */
  ghost predicate StrictlyMonotone(ranges: seq<RangePayout>, up: bool) {
    forall i, j | 0 <= i < j < |ranges| ::
      if up then ranges[i].offer < ranges[j].offer else ranges[i].offer > ranges[j].offer
  }

  lemma LinearOffer(p: Piece, terms: Terms, modulus: nat, ranges: seq<RangePayout>, i: nat)
    requires LinearWithin(p, terms, modulus) && Agrees(Ok(ranges), [p], Last(p), terms) && i < |ranges|
    ensures First(p) <= ranges[i].start <= Last(p)
    ensures ranges[i].offer == Paid(Line(p.points[0], p.points[1], ranges[i].start), modulus, terms.totalCollateral)
  {
    var total := terms.totalCollateral;
    EndsOrdered(ranges, First(p), Last(p), total, i);
    StartsAfterFirst(ranges, First(p), Last(p), total, i);
    assert Splits(ranges[i], total) && PaysInside(ranges[i], [p], terms) && InRange(ranges[i], ranges[i].start);
    LinearNeverFails(p, terms, modulus, ranges[i].start);
  }

  lemma {:induction false} StartsAfterFirst(a: seq<RangePayout>, first: nat, last: nat, total: nat, i: nat)
    requires RunLengths(a, first, last, total) && i < |a|
    ensures first <= a[i].start
    decreases i
  {
    if i > 0 {
      StartsAfterFirst(a, first, last, total, i - 1);
      assert AdjoinsNext(a, i - 1);
    }
  }

  /** From one range to the next the offer and its rank move the way the line goes. */
  lemma LinearStep(p: Piece, terms: Terms, modulus: nat, ranges: seq<RangePayout>, i: nat)
    requires LinearWithin(p, terms, modulus) && Agrees(Ok(ranges), [p], Last(p), terms) && i + 1 < |ranges|
    ensures var total := terms.totalCollateral;
            var (a, b) := if Rising(p) then (ranges[i].offer, ranges[i + 1].offer)
                          else (ranges[i + 1].offer, ranges[i].offer);
            a < b && Rank(a, modulus, total) < Rank(b, modulus, total) <= Positional.Quotient(total, modulus) + 1
  {
    var l, r, total := p.points[0], p.points[1], terms.totalCollateral;
    assert AdjoinsNext(ranges, i) && Splits(ranges[i], total);
    LinearOffer(p, terms, modulus, ranges, i);
    LinearOffer(p, terms, modulus, ranges, i + 1);
    var x, y := Line(l, r, ranges[i].start), Line(l, r, ranges[i + 1].start);
    LineMonotone(l, r, ranges[i].start, ranges[i + 1].start);
    LineWithin(p, terms, modulus, ranges[i].start);
    LineWithin(p, terms, modulus, ranges[i + 1].start);
    if Rising(p) {
      PaidMonotone(x, y, modulus, total);
      RankIsStrict(x, y, modulus, total);
    } else {
      PaidMonotone(y, x, modulus, total);
      RankIsStrict(y, x, modulus, total);
    }
  }

  lemma {:induction false} LinearRanks(p: Piece, terms: Terms, modulus: nat, ranges: seq<RangePayout>, i: nat)
    requires LinearWithin(p, terms, modulus) && Agrees(Ok(ranges), [p], Last(p), terms) && i < |ranges|
    ensures var rank := Rank(ranges[i].offer, modulus, terms.totalCollateral);
            if Rising(p) then i <= rank else |ranges| - 1 - i <= rank
    decreases if Rising(p) then i else |ranges| - 1 - i
  {
    if Rising(p) && i > 0 {
      LinearRanks(p, terms, modulus, ranges, i - 1);
      LinearStep(p, terms, modulus, ranges, i - 1);
    } else if !Rising(p) && i < |ranges| - 1 {
      LinearRanks(p, terms, modulus, ranges, i + 1);
      LinearStep(p, terms, modulus, ranges, i);
    }
  }

  lemma {:induction false} LinearStrict(p: Piece, terms: Terms, modulus: nat, ranges: seq<RangePayout>, i: nat, j: nat)
    requires LinearWithin(p, terms, modulus) && Agrees(Ok(ranges), [p], Last(p), terms) && i < j < |ranges|
    ensures if Rising(p) then ranges[i].offer < ranges[j].offer else ranges[i].offer > ranges[j].offer
    decreases j
  {
    LinearStep(p, terms, modulus, ranges, j - 1);
    if i < j - 1 {
      LinearStrict(p, terms, modulus, ranges, i, j - 1);
    }
  }

  /** A line within the total never fails, its ranges go strictly one way, and
      there are few of them. */
  lemma LinearPiece(p: Piece, terms: Terms, modulus: nat)
    requires LinearWithin(p, terms, modulus)
    ensures var r := CurveRanges([p], terms);
            r.Ok? && StrictlyMonotone(r.value, Rising(p)) && |r.value| <= terms.totalCollateral / modulus + 2
  {
    RangesAreThePayouts([p], terms);
    SucceedsIfAllPay([p], terms);
    forall x: nat | First(p) <= x <= Last(p) ensures OfferAt([p], x, terms).Ok? {
      LinearNeverFails(p, terms, modulus, x);
    }
    var ranges := CurveRanges([p], terms).value;
    forall i, j | 0 <= i < j < |ranges|
      ensures if Rising(p) then ranges[i].offer < ranges[j].offer else ranges[i].offer > ranges[j].offer
    {
      LinearStrict(p, terms, modulus, ranges, i, j);
    }
    LinearCount(p, terms, modulus, ranges);
    Positional.QuotientIsDivision(terms.totalCollateral, modulus);
  }

  lemma LinearCount(p: Piece, terms: Terms, modulus: nat, ranges: seq<RangePayout>)
    requires LinearWithin(p, terms, modulus) && Agrees(Ok(ranges), [p], Last(p), terms)
    ensures |ranges| <= Positional.Quotient(terms.totalCollateral, modulus) + 2
  {
    var n := |ranges|;
    if n > 1 {
      if Rising(p) {
        LinearRanks(p, terms, modulus, ranges, n - 1);
        LinearStep(p, terms, modulus, ranges, n - 2);
      } else {
        LinearRanks(p, terms, modulus, ranges, 0);
        LinearStep(p, terms, modulus, ranges, 0);
      }
    }
  }

  // ---- The line and the polynomial through the same two points ----

  lemma DivideBack(x: real, d: real, q: real)
    requires d != 0.0 && q * d == x
    ensures x / d == q
  {
  }

  lemma CommonDenominator(x: real, lo: real, hi: real, a: real, b: real)
    requires lo < hi
    ensures a * ((x - hi) / (lo - hi)) + b * ((x - lo) / (hi - lo)) == (x - lo) * ((b - a) / (hi - lo)) + a
  {
    var w := hi - lo;
    var t := (x - lo) / w;
    QuotientSign(x - lo, w);
    assert (x - hi) / (lo - hi) == 1.0 - t by {
      DivideBack(x - hi, lo - hi, 1.0 - t);
    }
    assert (x - lo) * ((b - a) / w) == t * (b - a) by {
      QuotientSign(b - a, w);
    }
  }

  lemma TwoPointSum(l: PayoutPoint, r: PayoutPoint, x: nat)
    requires l.eventOutcome < r.eventOutcome
    ensures var lo, hi := l.eventOutcome as real, r.eventOutcome as real;
            LagrangeSum([l, r], x, 2) ==
            PrecisePayout(l) * ((x as real - hi) / (lo - hi)) + PrecisePayout(r) * ((x as real - lo) / (hi - lo))
  {
    var points := [l, r];
    assert LagrangeTerm(points, 0, x, 1) == PrecisePayout(l);
    assert LagrangeTerm(points, 1, x, 1) == LagrangeTerm(points, 1, x, 0) * LagrangeFactor(points, 1, x, 0);
    assert LagrangeSum(points, x, 1) == LagrangeSum(points, x, 0) + LagrangeTerm(points, 0, x, 2);
  }

  /** The line is the interpolating polynomial when, and only when, neither of
      its points asks for extra precision. */
  lemma LineIsInterpolation(l: PayoutPoint, r: PayoutPoint)
    requires l.eventOutcome < r.eventOutcome
    ensures (forall x: nat | l.eventOutcome <= x <= r.eventOutcome :: LagrangeSum([l, r], x, 2) == Line(l, r, x))
            <==> l.extraPrecision == 0 && r.extraPrecision == 0
  {
    var points := [l, r];
    LineEnds(l, r);
    InterpolatesPoints(points, 0);
    InterpolatesPoints(points, 1);
    assert LagrangeSum(points, l.eventOutcome, 2) == PrecisePayout(l);
    assert LagrangeSum(points, r.eventOutcome, 2) == PrecisePayout(r);
    if l.extraPrecision == 0 && r.extraPrecision == 0 {
      forall x: nat | l.eventOutcome <= x <= r.eventOutcome ensures LagrangeSum(points, x, 2) == Line(l, r, x) {
        TwoPointSum(l, r, x);
        CommonDenominator(x as real, l.eventOutcome as real, r.eventOutcome as real,
                          l.outcomePayout as real, r.outcomePayout as real);
      }
    }
  }

  // ---- The constant ----

  /** Every outcome after the first one, up to this one, pays the same. */
  ghost predicate PaysThroughout(p: Piece, terms: Terms, upto: nat, offer: nat)
    requires UsableIntervals(terms.roundingIntervals)
  {
    forall x: nat | First(p) < x <= upto :: RoundedPayout(p, x, terms) == Ok(offer)
  }

  lemma PaysLess(p: Piece, terms: Terms, upto: nat, offer: nat)
    requires UsableIntervals(terms.roundingIntervals) && upto > 0 && PaysThroughout(p, terms, upto, offer)
    ensures PaysThroughout(p, terms, upto - 1, offer)
  {
  }

  lemma PaysOneMore(p: Piece, terms: Terms, upto: nat, offer: nat)
    requires UsableIntervals(terms.roundingIntervals) && upto > 0 && PaysThroughout(p, terms, upto - 1, offer)
    requires RoundedPayout(p, upto, terms) == Ok(offer)
    ensures PaysThroughout(p, terms, upto, offer)
  {
  }

  /** What walking makes of ranges when all outcomes up to this one pay the same. */
  function Lengthened(p: Piece, ranges: seq<RangePayout>, upto: nat): seq<RangePayout>
    requires ranges != [] && First(p) <= upto
  {
    ranges[..|ranges| - 1] + [Lengthen(ranges[|ranges| - 1], upto - First(p))]
  }

  lemma WalkLengthensOnce(p: Piece, ranges: seq<RangePayout>, terms: Terms, upto: nat)
    requires UsableIntervals(terms.roundingIntervals) && ranges != [] && First(p) < upto
    requires PaysThroughout(p, terms, upto, ranges[|ranges| - 1].offer)
    requires Walk(p, ranges, terms, upto - 1) == Ok(Lengthened(p, ranges, upto - 1))
    ensures Walk(p, ranges, terms, upto) == Ok(Lengthened(p, ranges, upto))
  {
    var last := |ranges| - 1;
    assert RoundedPayout(p, upto, terms) == Ok(ranges[last].offer);
    WalkStep(p, ranges, terms, upto, ranges[..last], Lengthen(ranges[last], upto - 1 - First(p)));
  }

  lemma {:induction false} WalkLengthens(p: Piece, ranges: seq<RangePayout>, terms: Terms, upto: nat)
    requires UsableIntervals(terms.roundingIntervals) && ranges != [] && First(p) <= upto
    requires PaysThroughout(p, terms, upto, ranges[|ranges| - 1].offer)
    ensures Walk(p, ranges, terms, upto) == Ok(Lengthened(p, ranges, upto))
    decreases upto
  {
    if upto == First(p) {
      assert ranges == Lengthened(p, ranges, upto);
    } else {
      PaysLess(p, terms, upto, ranges[|ranges| - 1].offer);
      WalkLengthens(p, ranges, terms, upto - 1);
      WalkLengthensOnce(p, ranges, terms, upto);
    }
  }

  lemma {:induction false} WalkNeverShrinks(p: Piece, ranges: seq<RangePayout>, terms: Terms, x: nat, upto: nat)
    requires UsableIntervals(terms.roundingIntervals) && ranges != [] && First(p) <= x <= upto
    ensures Walk(p, ranges, terms, upto).Ok? ==>
              && Walk(p, ranges, terms, x).Ok?
              && |Walk(p, ranges, terms, x).value| <= |Walk(p, ranges, terms, upto).value|
    decreases upto
  {
    if x < upto {
      WalkNeverShrinks(p, ranges, terms, x, upto - 1);
    }
  }

  /** The last outcome walked pays what the last range does if it adds none. */
  lemma LastOnlyLengthens(p: Piece, ranges: seq<RangePayout>, terms: Terms, upto: nat)
    requires UsableIntervals(terms.roundingIntervals) && ranges != [] && First(p) < upto
    requires Walk(p, ranges, terms, upto - 1) == Ok(Lengthened(p, ranges, upto - 1))
    requires Walk(p, ranges, terms, upto).Ok? && |Walk(p, ranges, terms, upto).value| == |ranges|
    ensures RoundedPayout(p, upto, terms) == Ok(ranges[|ranges| - 1].offer)
  {
    var last := |ranges| - 1;
    WalkStep(p, ranges, terms, upto, ranges[..last], Lengthen(ranges[last], upto - 1 - First(p)));
  }

  lemma {:induction false} WalkThatOnlyLengthens(p: Piece, ranges: seq<RangePayout>, terms: Terms, upto: nat)
    requires UsableIntervals(terms.roundingIntervals) && ranges != [] && First(p) <= upto
    requires Walk(p, ranges, terms, upto).Ok? && |Walk(p, ranges, terms, upto).value| == |ranges|
    ensures PaysThroughout(p, terms, upto, ranges[|ranges| - 1].offer)
    decreases upto
  {
    if upto > First(p) {
      ShorterWalkOnlyLengthens(p, ranges, terms, upto);
      WalkThatOnlyLengthens(p, ranges, terms, upto - 1);
      WalkLengthens(p, ranges, terms, upto - 1);
      LastOnlyLengthens(p, ranges, terms, upto);
      PaysOneMore(p, terms, upto, ranges[|ranges| - 1].offer);
    }
  }

  lemma ShorterWalkOnlyLengthens(p: Piece, ranges: seq<RangePayout>, terms: Terms, upto: nat)
    requires UsableIntervals(terms.roundingIntervals) && ranges != [] && First(p) < upto
    requires Walk(p, ranges, terms, upto).Ok? && |Walk(p, ranges, terms, upto).value| == |ranges|
    ensures Walk(p, ranges, terms, upto - 1).Ok? && |Walk(p, ranges, terms, upto - 1).value| == |ranges|
  {
    assert Walk(p, ranges, terms, upto - 1).Ok? && |Walk(p, ranges, terms, upto - 1).value| <= |ranges| by {
      WalkNeverShrinks(p, ranges, terms, upto - 1, upto);
    }
    WalkNeverShrinks(p, ranges, terms, First(p), upto - 1);
  }

  /** For a constant piece the shortcut does what the general loop would do when,
      and only when, each later outcome rounds to what is paid where it starts. */
  lemma ConstantShortcut(p: Piece, ranges: seq<RangePayout>, terms: Terms)
    requires IsConstant(p) && UsableIntervals(terms.roundingIntervals)
    ensures var started := Started(p, ranges, terms);
            PieceRanges(p, ranges, terms) == GeneralRanges(p, ranges, terms) <==>
            started.Ok? ==> forall x: nat | First(p) < x <= Last(p) ::
                              RoundedPayout(p, x, terms) == Ok(started.value[|started.value| - 1].offer)
  {
    PointsAscend(p);
    var started := Started(p, ranges, terms);
    if started.Ok? {
      var s := started.value;
      if PieceRanges(p, ranges, terms) == GeneralRanges(p, ranges, terms) {
        WalkThatOnlyLengthens(p, s, terms, Last(p));
      }
      if forall x: nat | First(p) < x <= Last(p) :: RoundedPayout(p, x, terms) == Ok(s[|s| - 1].offer) {
        WalkLengthens(p, s, terms, Last(p));
      }
    }
  }

  /** With one modulus throughout, the only question is whether the range that is
      continued pays the rounded constant. */
  lemma ConstantShortcutOneModulus(p: Piece, ranges: seq<RangePayout>, terms: Terms, modulus: nat)
    requires IsConstant(p) && UsableIntervals(terms.roundingIntervals)
    requires forall x: nat | First(p) <= x <= Last(p) :: ModulusAt(terms.roundingIntervals, x) == modulus
    ensures PieceRanges(p, ranges, terms) == GeneralRanges(p, ranges, terms) <==>
            (ranges == [] || RoundedPayout(p, Last(p), terms) == Ok(ranges[|ranges| - 1].offer))
  {
    PointsAscend(p);
    ConstantShortcut(p, ranges, terms);
    assert forall x: nat | First(p) <= x <= Last(p) && RoundedPayout(p, Last(p), terms).Ok? ::
        RoundedPayout(p, x, terms) == RoundedPayout(p, Last(p), terms);
  }
}
