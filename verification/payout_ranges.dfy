/** The ranges generated from a payout curve are the run-length encoding of what
    the curve pays at each outcome. */
module PayoutRanges {

  import opened Results
  import opened PayoutRounding
  import opened PayoutCurve

  /** What the curve pays at an outcome. An outcome shared by two pieces belongs
      to the left one, and a constant piece pays what was paid where it starts. */
  function OfferAt(pieces: seq<Piece>, x: nat, terms: Terms): Result<nat, CurveError>
    requires pieces != [] && UsableIntervals(terms.roundingIntervals)
    decreases |pieces|
  {
    var last := |pieces| - 1;
    var p := pieces[last];
    if last > 0 && x <= First(p) then OfferAt(pieces[..last], x, terms)
    else if !IsConstant(p) then RoundedPayout(p, x, terms)
    else if last > 0 then OfferAt(pieces[..last], First(p), terms)
    else RoundedPayout(p, First(p), terms)
  }

  function CurveFirst(pieces: seq<Piece>): nat
    requires pieces != []
  {
    First(pieces[0])
  }

  function CurveLast(pieces: seq<Piece>): nat
    requires pieces != []
  {
    Last(pieces[|pieces| - 1])
  }

  ghost predicate DefinedAt(pieces: seq<Piece>, n: nat, x: nat)
    requires n <= |pieces|
  {
    exists i :: 0 <= i < n && First(pieces[i]) <= x <= Last(pieces[i])
  }

  lemma PieceAscends(p: Piece)
    ensures First(p) < Last(p)
  {
  }

  lemma {:induction false} DefinedBetween(pieces: seq<Piece>, n: nat, x: nat)
    requires Continuous(pieces) && 0 < n <= |pieces|
    ensures First(pieces[0]) < Last(pieces[n - 1])
    ensures DefinedAt(pieces, n, x) <==> First(pieces[0]) <= x <= Last(pieces[n - 1])
  {
    PieceAscends(pieces[n - 1]);
    if n > 1 {
      DefinedBetween(pieces, n - 1, x);
      assert MeetsNext(pieces, n - 2);
      assert DefinedAt(pieces, n, x) <==>
             DefinedAt(pieces, n - 1, x) || First(pieces[n - 1]) <= x <= Last(pieces[n - 1]);
    }
  }

  /** A curve is valid exactly if it is continuous and defined for the outcomes up to the
      maximum and no others. */
  lemma ValidIffDefined(pieces: seq<Piece>, maxValue: nat)
    requires pieces != []
    ensures ValidatePayoutFunction(pieces, maxValue).Ok? <==>
            Continuous(pieces) && forall x: nat :: DefinedAt(pieces, |pieces|, x) <==> x <= maxValue
    ensures ValidatePayoutFunction(pieces, maxValue) == Err(NotContinuous) <==> !Continuous(pieces)
  {
    if Continuous(pieces) {
      forall x: nat
        ensures DefinedAt(pieces, |pieces|, x) <==> First(pieces[0]) <= x <= Last(pieces[|pieces| - 1])
      {
        DefinedBetween(pieces, |pieces|, x);
      }
      assert DefinedAt(pieces, |pieces|, 0) <==> First(pieces[0]) == 0;
      assert DefinedAt(pieces, |pieces|, maxValue + 1) <==>
             First(pieces[0]) <= maxValue + 1 <= Last(pieces[|pieces| - 1]);
      assert DefinedAt(pieces, |pieces|, maxValue) <==>
             First(pieces[0]) <= maxValue <= Last(pieces[|pieces| - 1]);
    }
  }

  function End(range: RangePayout): nat {
    range.start + range.count
  }

  /** The next range starts where this one ends, and pays something else. */
  predicate AdjoinsNext(ranges: seq<RangePayout>, i: nat)
    requires i + 1 < |ranges|
  {
    ranges[i + 1].start == End(ranges[i]) && ranges[i + 1].offer != ranges[i].offer
  }

  predicate Splits(range: RangePayout, total: nat) {
    range.count > 0 && range.offer + range.accept == total
  }

  /** Maximal runs that cover the outcomes first to last one after the other,
      each sharing out the total. */
  predicate RunLengths(ranges: seq<RangePayout>, first: nat, last: nat, total: nat) {
    && ranges != []
    && ranges[0].start == first
    && End(ranges[|ranges| - 1]) == last + 1
    && (forall i :: 0 <= i < |ranges| ==> Splits(ranges[i], total))
    && (forall i: nat | i + 1 < |ranges| :: AdjoinsNext(ranges, i))
  }

  predicate InRange(range: RangePayout, x: nat) {
    range.start <= x < End(range)
  }

  ghost predicate PaysInside(range: RangePayout, pieces: seq<Piece>, terms: Terms)
    requires pieces != [] && UsableIntervals(terms.roundingIntervals)
  {
    forall x: nat | InRange(range, x) :: OfferAt(pieces, x, terms) == Ok(range.offer)
  }

  ghost predicate Carries(ranges: seq<RangePayout>, pieces: seq<Piece>, terms: Terms)
    requires pieces != [] && UsableIntervals(terms.roundingIntervals)
  {
    forall i :: 0 <= i < |ranges| ==> PaysInside(ranges[i], pieces, terms)
  }

  /** `x` is the first outcome the curve has no payout for. */
  ghost predicate FailsFirst(pieces: seq<Piece>, x: nat, e: CurveError, terms: Terms)
    requires pieces != [] && UsableIntervals(terms.roundingIntervals)
  {
    && OfferAt(pieces, x, terms) == Err(e)
    && forall y: nat | CurveFirst(pieces) <= y < x :: OfferAt(pieces, y, terms).Ok?
  }

  /** The generation has done right by the outcomes up to `upto`. */
  ghost predicate Agrees(r: Result<seq<RangePayout>, CurveError>, pieces: seq<Piece>, upto: nat, terms: Terms)
    requires pieces != [] && UsableIntervals(terms.roundingIntervals)
  {
    match r
    case Ok(ranges) =>
      RunLengths(ranges, CurveFirst(pieces), upto, terms.totalCollateral) && Carries(ranges, pieces, terms)
    case Err(e) => exists x: nat :: CurveFirst(pieces) <= x <= upto && FailsFirst(pieces, x, e, terms)
  }

  lemma RunLengthsBefore(a: seq<RangePayout>, first: nat, last: nat, total: nat)
    requires RunLengths(a, first, last, total) && |a| > 1
    ensures var i := |a| - 1; a[i].start > 0 && RunLengths(a[..i], first, a[i].start - 1, total)
    ensures var i := |a| - 1; InRange(a[i - 1], a[i].start - 1) && a[i - 1].offer != a[i].offer
  {
    var i := |a| - 1;
    assert AdjoinsNext(a, i - 1) && Splits(a[i - 1], total);
    forall k: nat | k + 1 < i ensures AdjoinsNext(a[..i], k) {
      assert AdjoinsNext(a, k);
    }
  }

  lemma {:induction false} RangeOf(ranges: seq<RangePayout>, first: nat, last: nat, total: nat, x: nat) returns (i: nat)
    requires RunLengths(ranges, first, last, total) && first <= x <= last
    ensures i < |ranges| && InRange(ranges[i], x)
    decreases |ranges|
  {
    i := |ranges| - 1;
    if x < ranges[i].start {
      RunLengthsBefore(ranges, first, last, total);
      i := RangeOf(ranges[..i], first, ranges[i].start - 1, total, x);
    }
  }

  /** The last run starts after the first outcome unless it is the only one. */
  lemma {:induction false} LastStart(a: seq<RangePayout>, first: nat, last: nat, total: nat)
    requires RunLengths(a, first, last, total)
    ensures first <= a[|a| - 1].start <= last
    ensures |a| > 1 ==> first < a[|a| - 1].start
    decreases |a|
  {
    assert Splits(a[|a| - 1], total);
    if |a| > 1 {
      RunLengthsBefore(a, first, last, total);
      LastStart(a[..|a| - 1], first, a[|a| - 1].start - 1, total);
    }
  }

  /** Two lists of ranges pay the same wherever both pay. */
  ghost predicate SameOffers(a: seq<RangePayout>, b: seq<RangePayout>) {
    forall r, q, x: nat | r in a && q in b && InRange(r, x) && InRange(q, x) :: r.offer == q.offer
  }

  lemma NotEarlier(a: seq<RangePayout>, b: seq<RangePayout>, first: nat, last: nat, total: nat)
    requires RunLengths(a, first, last, total) && RunLengths(b, first, last, total) && SameOffers(a, b)
    ensures b[|b| - 1].start <= a[|a| - 1].start
  {
    var r, q := a[|a| - 1], b[|b| - 1];
    LastStart(a, first, last, total);
    LastStart(b, first, last, total);
    if r.start < q.start && |b| > 1 {
      RunLengthsBefore(b, first, last, total);
      var previous := b[|b| - 2];
      assert r in a && q in b && previous in b;
      assert InRange(r, q.start - 1) && InRange(r, q.start) && InRange(q, q.start);
      assert false;
    }
  }

  /** No other maximal runs say the same about every outcome. */
  lemma {:induction false} RunLengthsUnique(a: seq<RangePayout>, b: seq<RangePayout>, first: nat, last: nat, total: nat)
    requires RunLengths(a, first, last, total) && RunLengths(b, first, last, total) && SameOffers(a, b)
    ensures a == b
    decreases |a|
  {
    var i, j := |a| - 1, |b| - 1;
    NotEarlier(a, b, first, last, total);
    NotEarlier(b, a, first, last, total);
    LastStart(a, first, last, total);
    LastStart(b, first, last, total);
    assert Splits(a[i], total) && Splits(b[j], total);
    assert a[i] == b[j] by {
      assert a[i] in a && b[j] in b && InRange(a[i], last) && InRange(b[j], last);
    }
    if i > 0 && j > 0 {
      RunLengthsBefore(a, first, last, total);
      RunLengthsBefore(b, first, last, total);
      RunLengthsUnique(a[..i], b[..j], first, a[i].start - 1, total);
    }
    assert a == a[..i] + [a[i]] && b == b[..j] + [b[j]];
  }

  lemma OfferBefore(pieces: seq<Piece>, x: nat, terms: Terms)
    requires |pieces| > 1 && UsableIntervals(terms.roundingIntervals) && x <= First(pieces[|pieces| - 1])
    ensures OfferAt(pieces, x, terms) == OfferAt(pieces[..|pieces| - 1], x, terms)
  {
  }

  /** What held of the curve without its last piece holds of the whole up to there. */
  lemma AgreesCarriesOver(r: Result<seq<RangePayout>, CurveError>, pieces: seq<Piece>, terms: Terms)
    requires |pieces| > 1 && Continuous(pieces) && UsableIntervals(terms.roundingIntervals)
    requires var init := pieces[..|pieces| - 1]; Agrees(r, init, CurveLast(init), terms)
    ensures Agrees(r, pieces, First(pieces[|pieces| - 1]), terms)
  {
    var last := |pieces| - 1;
    var init := pieces[..last];
    var upto := First(pieces[last]);
    assert MeetsNext(pieces, last - 1);
    match r
    case Ok(ranges) =>
      forall i | 0 <= i < |ranges| ensures PaysInside(ranges[i], pieces, terms) {
        EndsOrdered(ranges, CurveFirst(pieces), upto, terms.totalCollateral, i);
        assert PaysInside(ranges[i], init, terms);
        forall x: nat | InRange(ranges[i], x) ensures OfferAt(pieces, x, terms) == Ok(ranges[i].offer) {
          OfferBefore(pieces, x, terms);
        }
      }
    case Err(e) =>
      var x: nat :| CurveFirst(init) <= x <= upto && FailsFirst(init, x, e, terms);
      forall y: nat | CurveFirst(pieces) <= y <= x ensures OfferAt(pieces, y, terms) == OfferAt(init, y, terms) {
        OfferBefore(pieces, y, terms);
      }
      assert FailsFirst(pieces, x, e, terms);
  }

  lemma {:induction false} EndsOrdered(a: seq<RangePayout>, first: nat, last: nat, total: nat, i: nat)
    requires RunLengths(a, first, last, total) && i < |a|
    ensures End(a[i]) <= last + 1
    decreases |a| - i
  {
    if i + 1 < |a| {
      EndsOrdered(a, first, last, total, i + 1);
      assert AdjoinsNext(a, i);
    }
  }

  lemma ExtendAgrees(ranges: seq<RangePayout>, pieces: seq<Piece>, x: nat, offer: nat, terms: Terms)
    requires pieces != [] && UsableIntervals(terms.roundingIntervals) && x > 0 && offer <= terms.totalCollateral
    requires Agrees(Ok(ranges), pieces, x - 1, terms) && OfferAt(pieces, x, terms) == Ok(offer)
    ensures Agrees(Ok(Extend(ranges, x, offer, terms)), pieces, x, terms)
  {
    var last := |ranges| - 1;
    if ranges[last].offer == offer {
      LengthenAgrees(ranges, pieces, x - 1, x, terms);
    } else {
      var r := ranges + [SingleOutcome(x, offer, terms)];
      forall i: nat | i + 1 < |r| ensures AdjoinsNext(r, i) {
        assert i < last ==> AdjoinsNext(ranges, i);
      }
      forall i | 0 <= i < |r| ensures PaysInside(r[i], pieces, terms) {
        assert i <= last ==> PaysInside(ranges[i], pieces, terms);
      }
    }
  }

  lemma LengthenAgrees(ranges: seq<RangePayout>, pieces: seq<Piece>, upto: nat, x: nat, terms: Terms)
    requires pieces != [] && UsableIntervals(terms.roundingIntervals) && upto <= x
    requires Agrees(Ok(ranges), pieces, upto, terms)
    requires forall y: nat | upto < y <= x :: OfferAt(pieces, y, terms) == Ok(ranges[|ranges| - 1].offer)
    ensures var last := |ranges| - 1;
            Agrees(Ok(ranges[..last] + [Lengthen(ranges[last], x - upto)]), pieces, x, terms)
  {
    var last := |ranges| - 1;
    var longer := Lengthen(ranges[last], x - upto);
    var r := ranges[..last] + [longer];
    forall i: nat | i + 1 < |r| ensures AdjoinsNext(r, i) {
      assert AdjoinsNext(ranges, i);
    }
    assert PaysInside(longer, pieces, terms) by {
      assert PaysInside(ranges[last], pieces, terms);
      forall y: nat | InRange(longer, y) ensures OfferAt(pieces, y, terms) == Ok(longer.offer) {
        assert y <= upto ==> InRange(ranges[last], y);
      }
    }
    assert Splits(longer, terms.totalCollateral) by {
      assert Splits(ranges[last], terms.totalCollateral);
    }
    forall i | 0 <= i < |r| ensures PaysInside(r[i], pieces, terms) && Splits(r[i], terms.totalCollateral) {
      assert i < last ==> r[i] == ranges[i] && PaysInside(ranges[i], pieces, terms);
    }
  }

  lemma AllOkBefore(ranges: seq<RangePayout>, pieces: seq<Piece>, upto: nat, x: nat, terms: Terms)
    requires pieces != [] && UsableIntervals(terms.roundingIntervals) && CurveFirst(pieces) <= x <= upto
    requires Agrees(Ok(ranges), pieces, upto, terms)
    ensures OfferAt(pieces, x, terms).Ok?
  {
    var i := RangeOf(ranges, CurveFirst(pieces), upto, terms.totalCollateral, x);
    assert PaysInside(ranges[i], pieces, terms);
  }

  lemma {:induction false} WalkAgrees(pieces: seq<Piece>, ranges: seq<RangePayout>, upto: nat, terms: Terms)
    requires pieces != [] && UsableIntervals(terms.roundingIntervals) && !IsConstant(pieces[|pieces| - 1])
    requires First(pieces[|pieces| - 1]) <= upto && CurveFirst(pieces) <= First(pieces[|pieces| - 1])
    requires Agrees(Ok(ranges), pieces, First(pieces[|pieces| - 1]), terms)
    ensures Agrees(Walk(pieces[|pieces| - 1], ranges, terms, upto), pieces, upto, terms)
    decreases upto
  {
    var p := pieces[|pieces| - 1];
    if upto > First(p) {
      WalkAgrees(pieces, ranges, upto - 1, terms);
      var before := Walk(p, ranges, terms, upto - 1);
      var payout := RoundedPayout(p, upto, terms);
      assert OfferAt(pieces, upto, terms) == payout;
      if before.Ok? {
        if payout.Ok? {
          ExtendAgrees(before.value, pieces, upto, payout.value, terms);
        } else {
          forall y: nat | CurveFirst(pieces) <= y < upto ensures OfferAt(pieces, y, terms).Ok? {
            AllOkBefore(before.value, pieces, upto - 1, y, terms);
          }
          assert FailsFirst(pieces, upto, payout.error, terms);
        }
      }
    }
  }

  lemma {:induction false} FirstsOrdered(pieces: seq<Piece>)
    requires pieces != [] && Continuous(pieces)
    ensures CurveFirst(pieces) <= First(pieces[|pieces| - 1])
    decreases |pieces|
  {
    var last := |pieces| - 1;
    if last > 0 {
      ContinuousPrefix(pieces, last);
      FirstsOrdered(pieces[..last]);
      PointsAscend(pieces[last - 1]);
      assert MeetsNext(pieces, last - 1);
    }
  }

  /** The ranges of the last piece are started right. */
  lemma StartedAgrees(pieces: seq<Piece>, before: Result<seq<RangePayout>, CurveError>, terms: Terms)
    requires pieces != [] && Continuous(pieces) && UsableIntervals(terms.roundingIntervals)
    requires before == CurveRanges(pieces[..|pieces| - 1], terms)
    requires |pieces| > 1 ==> Agrees(before, pieces, First(pieces[|pieces| - 1]), terms)
    ensures |pieces| == 1 ==> before == Ok([])
    ensures before.Ok? ==>
              Agrees(Started(pieces[|pieces| - 1], before.value, terms), pieces, First(pieces[|pieces| - 1]), terms)
  {
    var p := pieces[|pieces| - 1];
    if |pieces| == 1 {
      var payout := RoundedPayout(p, First(p), terms);
      assert OfferAt(pieces, First(p), terms) == payout;
      if payout.Ok? {
        var r := [SingleOutcome(First(p), payout.value, terms)];
        assert PaysInside(r[0], pieces, terms);
      } else {
        assert FailsFirst(pieces, First(p), payout.error, terms);
      }
    }
  }

  lemma PieceAgrees(pieces: seq<Piece>, started: Result<seq<RangePayout>, CurveError>, ranges: seq<RangePayout>,
                    terms: Terms)
    requires pieces != [] && Continuous(pieces) && UsableIntervals(terms.roundingIntervals)
    requires started == Started(pieces[|pieces| - 1], ranges, terms)
    requires Agrees(started, pieces, First(pieces[|pieces| - 1]), terms)
    ensures Agrees(PieceRanges(pieces[|pieces| - 1], ranges, terms), pieces, CurveLast(pieces), terms)
  {
    var p := pieces[|pieces| - 1];
    PointsAscend(p);
    FirstsOrdered(pieces);
    if started.Ok? {
      if IsConstant(p) {
        var rs := started.value;
        assert PaysInside(rs[|rs| - 1], pieces, terms) && InRange(rs[|rs| - 1], First(p));
        LengthenAgrees(rs, pieces, First(p), Last(p), terms);
      } else {
        WalkAgrees(pieces, started.value, Last(p), terms);
      }
    }
  }

  /** The generated ranges are the maximal runs of what the curve pays at each
      outcome, and generation fails exactly when some outcome has no payout,
      with the error of the first such outcome. */
  lemma {:induction false} RangesAreThePayouts(pieces: seq<Piece>, terms: Terms)
    requires pieces != [] && Continuous(pieces) && UsableIntervals(terms.roundingIntervals)
    ensures Agrees(CurveRanges(pieces, terms), pieces, CurveLast(pieces), terms)
    decreases |pieces|
  {
    var last := |pieces| - 1;
    var init := pieces[..last];
    var before := CurveRanges(init, terms);
    if last > 0 {
      ContinuousPrefix(pieces, last);
      RangesAreThePayouts(init, terms);
      AgreesCarriesOver(before, pieces, terms);
      PointsAscend(pieces[last]);
    }
    StartedAgrees(pieces, before, terms);
    if before.Ok? {
      PieceAgrees(pieces, Started(pieces[last], before.value, terms), before.value, terms);
    }
  }

  ghost predicate AllPay(pieces: seq<Piece>, terms: Terms)
    requires pieces != [] && UsableIntervals(terms.roundingIntervals)
  {
    forall x: nat | CurveFirst(pieces) <= x <= CurveLast(pieces) :: OfferAt(pieces, x, terms).Ok?
  }

  lemma AgreesOkIfAllPay(r: Result<seq<RangePayout>, CurveError>, pieces: seq<Piece>, terms: Terms)
    requires pieces != [] && UsableIntervals(terms.roundingIntervals) && Agrees(r, pieces, CurveLast(pieces), terms)
    ensures r.Ok? <==> AllPay(pieces, terms)
  {
    match r
    case Ok(ranges) =>
      forall x: nat | CurveFirst(pieces) <= x <= CurveLast(pieces) ensures OfferAt(pieces, x, terms).Ok? {
        AllOkBefore(ranges, pieces, CurveLast(pieces), x, terms);
      }
    case Err(e) =>
      var x: nat :| CurveFirst(pieces) <= x <= CurveLast(pieces) && FailsFirst(pieces, x, e, terms);
      assert OfferAt(pieces, x, terms).Err?;
  }

  /** Generation succeeds exactly when every outcome has a payout. */
  lemma SucceedsIfAllPay(pieces: seq<Piece>, terms: Terms)
    requires pieces != [] && Continuous(pieces) && UsableIntervals(terms.roundingIntervals)
    ensures CurveRanges(pieces, terms).Ok? <==> AllPay(pieces, terms)
  {
    RangesAreThePayouts(pieces, terms);
    AgreesOkIfAllPay(CurveRanges(pieces, terms), pieces, terms);
  }

  /** After its first outcome every piece decides by its own rounded evaluation,
      unless it is constant: then it repeats what was paid at its first outcome. */
  lemma {:induction false} PieceDecides(pieces: seq<Piece>, i: nat, x: nat, terms: Terms)
    requires i < |pieces| && Continuous(pieces) && UsableIntervals(terms.roundingIntervals)
    requires First(pieces[i]) < x <= Last(pieces[i])
    ensures OfferAt(pieces, x, terms) ==
            if IsConstant(pieces[i]) then OfferAt(pieces, First(pieces[i]), terms)
            else RoundedPayout(pieces[i], x, terms)
    decreases |pieces|
  {
    var last := |pieces| - 1;
    if i < last {
      FirstAfter(pieces, i);
      ContinuousPrefix(pieces, last);
      assert pieces[..last][i] == pieces[i];
      PieceDecides(pieces[..last], i, x, terms);
      OfferBefore(pieces, x, terms);
      OfferBefore(pieces, First(pieces[i]), terms);
    } else if last > 0 {
      OfferBefore(pieces, First(pieces[i]), terms);
    }
  }

  lemma {:induction false} FirstAfter(pieces: seq<Piece>, i: nat)
    requires i + 1 < |pieces| && Continuous(pieces)
    ensures Last(pieces[i]) <= First(pieces[|pieces| - 1])
    decreases |pieces|
  {
    var last := |pieces| - 1;
    assert MeetsNext(pieces, last - 1);
    if i + 1 < last {
      ContinuousPrefix(pieces, last);
      assert pieces[..last][i] == pieces[i] && pieces[..last][last - 1] == pieces[last - 1];
      FirstAfter(pieces[..last], i);
      PointsAscend(pieces[last - 1]);
    }
  }
}
