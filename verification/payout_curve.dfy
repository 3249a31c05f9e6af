/** Model of dlc-manager/src/payout_curve.rs: piecewise payout curves and the
    run-length encoded ranges generated from them. */
module PayoutCurve {

  import opened Results
  import opened PayoutRounding

  datatype PayoutPoint = PayoutPoint(eventOutcome: nat, outcomePayout: nat, extraPrecision: nat)

  datatype PayoutFunctionPiece =
    | Polynomial(points: seq<PayoutPoint>)
    | Hyperbola(leftEndPoint: PayoutPoint, rightEndPoint: PayoutPoint, usePositivePiece: bool,
                translateOutcome: real, translatePayout: real, a: real, b: real, c: real, d: real)

  datatype RangePayout = RangePayout(start: nat, count: nat, offer: nat, accept: nat)

  datatype CurveError = NotEvaluated(outcome: nat) | AboveTotal | NotContinuous | NotCovering

  /** What the generation of ranges is relative to; the square root is left open. */
  datatype Terms = Terms(totalCollateral: nat, roundingIntervals: seq<RoundingInterval>, sqrt: real -> real)

  predicate Ascending(points: seq<PayoutPoint>) {
    forall i, j :: 0 <= i < j < |points| ==> points[i].eventOutcome < points[j].eventOutcome
  }

  /** What the constructors of the pieces establish and the generation relies on;
      the outcome U64_MAX is not part of the model. */
  predicate IsPiece(p: PayoutFunctionPiece) {
    && (p.Polynomial? ==> |p.points| > 1 && Ascending(p.points))
    && (p.Hyperbola? ==> p.leftEndPoint.eventOutcome < p.rightEndPoint.eventOutcome)
    && LastPoint(p).eventOutcome < U64_MAX
  }

  type Piece = p: PayoutFunctionPiece | IsPiece(p) witness Polynomial([PayoutPoint(0, 0, 0), PayoutPoint(1, 0, 0)])

  function FirstPoint(p: PayoutFunctionPiece): PayoutPoint
    requires p.Polynomial? ==> p.points != []
  {
    if p.Polynomial? then p.points[0] else p.leftEndPoint
  }

  function LastPoint(p: PayoutFunctionPiece): PayoutPoint
    requires p.Polynomial? ==> p.points != []
  {
    if p.Polynomial? then p.points[|p.points| - 1] else p.rightEndPoint
  }

  function First(p: Piece): nat {
    FirstPoint(p).eventOutcome
  }

  function Last(p: Piece): nat {
    LastPoint(p).eventOutcome
  }

  predicate MeetsNext(pieces: seq<Piece>, i: nat)
    requires i + 1 < |pieces|
  {
    LastPoint(pieces[i]) == FirstPoint(pieces[i + 1])
  }

  predicate Continuous(pieces: seq<Piece>) {
    forall i: nat | i + 1 < |pieces| :: MeetsNext(pieces, i)
  }

  /** A prefix of a continuous curve is continuous. */
  lemma ContinuousPrefix(pieces: seq<Piece>, n: nat)
    requires Continuous(pieces) && n <= |pieces|
    ensures Continuous(pieces[..n])
  {
    forall i: nat | i + 1 < n ensures MeetsNext(pieces[..n], i) {
      assert MeetsNext(pieces, i);
    }
  }

  /** Whether the curve is defined on exactly the outcomes 0 to `maxValue`. */
  function ValidatePayoutFunction(pieces: seq<Piece>, maxValue: nat): Result<(), CurveError>
    requires pieces != []
  {
    if !Continuous(pieces) then Err(NotContinuous)
    else if First(pieces[0]) == 0 && Last(pieces[|pieces| - 1]) == maxValue then Ok(())
    else Err(NotCovering)
  }

  /** The interpolation factor of point `i` at `x`, over the first `n` points. */
  function LagrangeTerm(points: seq<PayoutPoint>, i: nat, x: nat, n: nat): real
    requires Ascending(points) && i < |points| && n <= |points|
    decreases n
  {
    if n == 0 then PrecisePayout(points[i])
    else if n - 1 == i then LagrangeTerm(points, i, x, n - 1)
    else LagrangeTerm(points, i, x, n - 1) * LagrangeFactor(points, i, x, n - 1)
  }

  function LagrangeFactor(points: seq<PayoutPoint>, i: nat, x: nat, j: nat): real
    requires Ascending(points) && i < |points| && j < |points| && i != j
  {
    assert points[i].eventOutcome != points[j].eventOutcome by { assert i < j || j < i; }
    (x as real - points[j].eventOutcome as real) / (points[i].eventOutcome as real - points[j].eventOutcome as real)
  }

  function LagrangeSum(points: seq<PayoutPoint>, x: nat, n: nat): real
    requires Ascending(points) && n <= |points|
  {
    if n == 0 then 0.0 else LagrangeSum(points, x, n - 1) + LagrangeTerm(points, n - 1, x, |points|)
  }

  function PrecisePayout(point: PayoutPoint): real {
    point.outcomePayout as real + point.extraPrecision as real / 65536.0
  }

  /** The interpolation as it is computed. */
  method Interpolate(points: seq<PayoutPoint>, outcome: nat) returns (result: real)
    requires Ascending(points)
    ensures result == LagrangeSum(points, outcome, |points|)
  {
    result := 0.0;
    for i := 0 to |points|
      invariant result == LagrangeSum(points, outcome, i)
    {
      var l := PrecisePayout(points[i]);
      for j := 0 to |points|
        invariant l == LagrangeTerm(points, i, outcome, j)
      {
        if i != j {
          assert points[i].eventOutcome != points[j].eventOutcome by { assert i < j || j < i; }
          var denominator := points[i].eventOutcome as real - points[j].eventOutcome as real;
          var numerator := outcome as real - points[j].eventOutcome as real;
          l := l * (numerator / denominator);
        }
      }
      result := result + l;
    }
  }

  /** The interpolating polynomial goes through its points. */
  lemma InterpolatesPoints(points: seq<PayoutPoint>, k: nat)
    requires Ascending(points) && k < |points|
    ensures LagrangeSum(points, points[k].eventOutcome, |points|) == PrecisePayout(points[k])
  {
    SumAtPoint(points, k, |points|);
  }

  lemma {:induction false} SumAtPoint(points: seq<PayoutPoint>, k: nat, n: nat)
    requires Ascending(points) && k < |points| && n <= |points|
    ensures LagrangeSum(points, points[k].eventOutcome, n) == if k < n then PrecisePayout(points[k]) else 0.0
  {
    if n > 0 {
      SumAtPoint(points, k, n - 1);
      TermAtPoint(points, n - 1, k, |points|);
    }
  }

  lemma {:induction false} TermAtPoint(points: seq<PayoutPoint>, i: nat, k: nat, n: nat)
    requires Ascending(points) && i < |points| && k < |points| && n <= |points|
    ensures i == k ==> LagrangeTerm(points, i, points[k].eventOutcome, n) == PrecisePayout(points[i])
    ensures i != k && k < n ==> LagrangeTerm(points, i, points[k].eventOutcome, n) == 0.0
  {
    if n > 0 {
      TermAtPoint(points, i, k, n - 1);
      if n - 1 != i {
        FactorAtPoint(points, i, k, n - 1);
        TimesUnit(LagrangeTerm(points, i, points[k].eventOutcome, n - 1),
                  LagrangeFactor(points, i, points[k].eventOutcome, n - 1));
      }
    }
  }

  lemma TimesUnit(x: real, y: real)
    ensures x == 0.0 || y == 0.0 ==> x * y == 0.0
    ensures y == 1.0 ==> x * y == x
  {
  }

  lemma FactorAtPoint(points: seq<PayoutPoint>, i: nat, k: nat, j: nat)
    requires Ascending(points) && i < |points| && k < |points| && j < |points| && i != j
    ensures i == k ==> LagrangeFactor(points, i, points[k].eventOutcome, j) == 1.0
    ensures j == k ==> LagrangeFactor(points, i, points[k].eventOutcome, j) == 0.0
  {
    assert points[i].eventOutcome != points[j].eventOutcome by { assert i < j || j < i; }
    SelfQuotient(points[i].eventOutcome as real - points[j].eventOutcome as real);
  }

  lemma SelfQuotient(y: real)
    requires y != 0.0
    ensures y / y == 1.0 && 0.0 / y == 0.0
  {
  }

  /** The straight line through two points. */
  function Line(left: PayoutPoint, right: PayoutPoint, x: nat): real
    requires left.eventOutcome < right.eventOutcome
  {
    (x as real - left.eventOutcome as real) * Slope(left, right) + left.outcomePayout as real
  }

  function Slope(left: PayoutPoint, right: PayoutPoint): real
    requires left.eventOutcome < right.eventOutcome
  {
    var rise := right.outcomePayout as real - left.outcomePayout as real;
    rise / (right.eventOutcome as real - left.eventOutcome as real)
  }

  predicate IsConstant(p: Piece) {
    p.Polynomial? && |p.points| == 2 && p.points[0].outcomePayout == p.points[1].outcomePayout
  }

  /** None is a result that is infinite or not a number. */
  function Evaluate(p: Piece, x: nat, sqrt: real -> real): Option<real>
  {
    if p.Hyperbola? then EvaluateHyperbola(p, x, sqrt)
    else if |p.points| != 2 then Some(LagrangeSum(p.points, x, |p.points|))
    else if IsConstant(p) then Some(p.points[1].outcomePayout as real)
    else Some(Line(p.points[0], p.points[1], x))
  }

  function Translated(p: PayoutFunctionPiece, x: nat): real
    requires p.Hyperbola?
  {
    x as real - p.translateOutcome
  }

  function Radicand(p: PayoutFunctionPiece, x: nat): real
    requires p.Hyperbola?
  {
    Translated(p, x) * Translated(p, x) - 4.0 * p.a * p.b
  }

  function Root(p: PayoutFunctionPiece, x: nat, sqrt: real -> real): real
    requires p.Hyperbola?
  {
    if p.usePositivePiece then sqrt(Radicand(p, x)) else -sqrt(Radicand(p, x))
  }

  function PayoutFromSum(p: PayoutFunctionPiece, sum: real): real
    requires p.Hyperbola? && p.a != 0.0 && sum != 0.0
  {
    p.c * sum / (2.0 * p.a) + 2.0 * p.a * p.d / sum + p.translatePayout
  }

  function EvaluateHyperbola(p: PayoutFunctionPiece, x: nat, sqrt: real -> real): Option<real>
    requires p.Hyperbola?
  {
    var sum := Translated(p, x) + Root(p, x, sqrt);
    if Radicand(p, x) < 0.0 || p.a == 0.0 || sum == 0.0 then None else Some(PayoutFromSum(p, sum))
  }

  function Min(a: nat, b: nat): nat {
    if a <= b then a else b
  }

  function RoundedPayout(p: Piece, x: nat, terms: Terms): (r: Result<nat, CurveError>)
    requires UsableIntervals(terms.roundingIntervals)
    ensures r.Ok? ==> r.value <= terms.totalCollateral
  {
    match Evaluate(p, x, terms.sqrt)
    case None => Err(NotEvaluated(x))
    case Some(payout) =>
      if payout < 0.0 then Err(NotEvaluated(x))
      else if RoundReal(payout) > terms.totalCollateral then Err(AboveTotal)
      else Ok(Min(Round(terms.roundingIntervals, x, payout), terms.totalCollateral))
  }

  /** A payout is the multiple of the modulus nearest to what the piece evaluates to, at
      most the total. It fails for no result or a negative one, and for one that rounds
      to an integer above the total. */
  lemma PaysNearest(p: Piece, x: nat, terms: Terms) returns (k: nat)
    requires UsableIntervals(terms.roundingIntervals) && terms.totalCollateral <= U64_MAX
    ensures var r, modulus := RoundedPayout(p, x, terms), ModulusAt(terms.roundingIntervals, x);
            match Evaluate(p, x, terms.sqrt)
            case None => r == Err(NotEvaluated(x))
            case Some(payout) =>
              && (r == Err(NotEvaluated(x)) <==> payout < 0.0)
              && (r == Err(AboveTotal) <==> payout >= terms.totalCollateral as real + 0.5)
              && (r.Ok? <==> 0.0 <= payout < terms.totalCollateral as real + 0.5)
              && (payout >= 0.0 ==> IsNearest(payout, modulus, k))
              && (r.Ok? ==> r.value == Min(modulus * k, terms.totalCollateral))
  {
    match Evaluate(p, x, terms.sqrt)
    case None => k := 0;
    case Some(payout) =>
      if payout < 0.0 {
        k := 0;
      } else {
        k := RoundsToNearest(payout, ModulusAt(terms.roundingIntervals, x));
      }
  }

  /** The ranges a piece continues: those generated so far, or a first one for its first outcome. */
  function Started(p: Piece, ranges: seq<RangePayout>, terms: Terms): Result<seq<RangePayout>, CurveError>
    requires UsableIntervals(terms.roundingIntervals)
  {
    if ranges != [] then Ok(ranges)
    else
      match RoundedPayout(p, First(p), terms)
      case Err(e) => Err(e)
      case Ok(v) => Ok([SingleOutcome(First(p), v, terms)])
  }

  function SingleOutcome(x: nat, offer: nat, terms: Terms): RangePayout
    requires offer <= terms.totalCollateral
  {
    RangePayout(x, 1, offer, terms.totalCollateral - offer)
  }

  function Lengthen(range: RangePayout, more: nat): RangePayout {
    range.(count := range.count + more)
  }

  /** One more outcome joins the last range when it pays the same. */
  function Extend(ranges: seq<RangePayout>, x: nat, offer: nat, terms: Terms): seq<RangePayout>
    requires ranges != [] && offer <= terms.totalCollateral
  {
    var last := |ranges| - 1;
    if ranges[last].offer == offer then ranges[..last] + [Lengthen(ranges[last], 1)]
    else ranges + [SingleOutcome(x, offer, terms)]
  }

  /** The ranges after the outcomes of the piece beyond its first, up to `upto`. */
  function Walk(p: Piece, ranges: seq<RangePayout>, terms: Terms, upto: nat): (r: Result<seq<RangePayout>, CurveError>)
    requires UsableIntervals(terms.roundingIntervals) && First(p) <= upto && ranges != []
    ensures r.Ok? ==> r.value != []
    decreases upto
  {
    if upto == First(p) then Ok(ranges)
    else
      match Walk(p, ranges, terms, upto - 1)
      case Err(e) => Err(e)
      case Ok(before) =>
        match RoundedPayout(p, upto, terms)
        case Err(e) => Err(e)
        case Ok(v) => Ok(Extend(before, upto, v, terms))
  }

  /** What the general loop makes of a piece. */
  function GeneralRanges(p: Piece, ranges: seq<RangePayout>, terms: Terms): Result<seq<RangePayout>, CurveError>
    requires UsableIntervals(terms.roundingIntervals)
  {
    match Started(p, ranges, terms)
    case Err(e) => Err(e)
    case Ok(started) => PointsAscend(p); Walk(p, started, terms, Last(p))
  }

  lemma PointsAscend(p: Piece)
    ensures First(p) < Last(p)
  {
  }

  /** What a piece adds, with the shortcut for constant pieces. */
  function PieceRanges(p: Piece, ranges: seq<RangePayout>, terms: Terms): Result<seq<RangePayout>, CurveError>
    requires UsableIntervals(terms.roundingIntervals)
  {
    if IsConstant(p) then
      match Started(p, ranges, terms)
      case Err(e) => Err(e)
      case Ok(started) =>
        var last := |started| - 1;
        Ok(started[..last] + [Lengthen(started[last], Last(p) - First(p))])
    else GeneralRanges(p, ranges, terms)
  }

  function CurveRanges(pieces: seq<Piece>, terms: Terms): Result<seq<RangePayout>, CurveError>
    requires UsableIntervals(terms.roundingIntervals)
  {
    if pieces == [] then Ok([])
    else
      match CurveRanges(pieces[..|pieces| - 1], terms)
      case Err(e) => Err(e)
      case Ok(before) => PieceRanges(pieces[|pieces| - 1], before, terms)
  }

  method GetCurRange(p: Piece, ranges: seq<RangePayout>, terms: Terms)
    returns (r: Result<RangePayout, CurveError>, rest: seq<RangePayout>)
    requires UsableIntervals(terms.roundingIntervals)
    ensures r.Ok? ==> Started(p, ranges, terms) == Ok(rest + [r.value])
    ensures r.Err? ==> Started(p, ranges, terms) == Err(r.error)
  {
    if ranges != [] {
      rest := ranges[..|ranges| - 1];
      r := Ok(ranges[|ranges| - 1]);
      assert rest + [r.value] == ranges;
    } else {
      rest := [];
      var firstOutcome := First(p);
      var firstPayout := RoundedPayout(p, firstOutcome, terms);
      r := match firstPayout
           case Err(e) => Err(e)
           case Ok(v) => Ok(SingleOutcome(firstOutcome, v, terms));
      assert r.Ok? ==> rest + [r.value] == [r.value];
    }
  }

  method ComputeRangePayouts(p: Piece, terms: Terms, ranges: seq<RangePayout>)
    returns (r: Result<seq<RangePayout>, CurveError>)
    requires UsableIntervals(terms.roundingIntervals)
    ensures r == GeneralRanges(p, ranges, terms)
  {
    var firstOutcome := First(p);
    PointsAscend(p);
    var started, done := GetCurRange(p, ranges, terms);
    if started.Err? {
      return Err(started.error);
    }
    var curRange := started.value;
    ghost var first := done + [curRange];
    var rangeEnd := Last(p) + 1;
    var outcome := firstOutcome + 1;
    while outcome < rangeEnd
      invariant firstOutcome < outcome <= rangeEnd
      invariant Walk(p, first, terms, outcome - 1) == Ok(done + [curRange])
    {
      var payout := RoundedPayout(p, outcome, terms);
      WalkStep(p, first, terms, outcome, done, curRange);
      if payout.Err? {
        WalkStops(p, first, terms, outcome, Last(p));
        return Err(payout.error);
      }
      if curRange.offer == payout.value {
        curRange := Lengthen(curRange, 1);
      } else {
        done := done + [curRange];
        curRange := SingleOutcome(outcome, payout.value, terms);
      }
      outcome := outcome + 1;
    }
    return Ok(done + [curRange]);
  }

  lemma WalkStep(p: Piece, ranges: seq<RangePayout>, terms: Terms, x: nat, done: seq<RangePayout>, cur: RangePayout)
    requires UsableIntervals(terms.roundingIntervals) && ranges != [] && First(p) < x
    requires Walk(p, ranges, terms, x - 1) == Ok(done + [cur])
    ensures Walk(p, ranges, terms, x) ==
            match RoundedPayout(p, x, terms)
            case Err(e) => Err(e)
            case Ok(v) =>
              Ok(if cur.offer == v then done + [Lengthen(cur, 1)] else done + [cur] + [SingleOutcome(x, v, terms)])
  {
    assert (done + [cur])[..|done|] == done;
  }

  lemma {:induction false} WalkStops(p: Piece, ranges: seq<RangePayout>, terms: Terms, x: nat, upto: nat)
    requires UsableIntervals(terms.roundingIntervals) && ranges != []
    requires First(p) <= x <= upto && Walk(p, ranges, terms, x).Err?
    ensures Walk(p, ranges, terms, upto) == Walk(p, ranges, terms, x)
    decreases upto
  {
    if x < upto {
      WalkStops(p, ranges, terms, x, upto - 1);
    }
  }

  method PieceToRangePayouts(p: Piece, terms: Terms, ranges: seq<RangePayout>)
    returns (r: Result<seq<RangePayout>, CurveError>)
    requires UsableIntervals(terms.roundingIntervals)
    ensures r == PieceRanges(p, ranges, terms)
  {
    if p.Polynomial? && |p.points| == 2 && p.points[0].outcomePayout == p.points[1].outcomePayout {
      var started, rest := GetCurRange(p, ranges, terms);
      if started.Err? {
        return Err(started.error);
      }
      PointsAscend(p);
      assert (rest + [started.value])[..|rest|] == rest;
      return Ok(rest + [Lengthen(started.value, p.points[1].eventOutcome - p.points[0].eventOutcome)]);
    }
    r := ComputeRangePayouts(p, terms, ranges);
  }

  method ToRangePayouts(pieces: seq<Piece>, terms: Terms) returns (r: Result<seq<RangePayout>, CurveError>)
    requires UsableIntervals(terms.roundingIntervals)
    ensures r == CurveRanges(pieces, terms)
  {
    r := Ok([]);
    for i := 0 to |pieces|
      invariant r.Ok? && r == CurveRanges(pieces[..i], terms)
    {
      assert pieces[..i + 1][..i] == pieces[..i];
      r := PieceToRangePayouts(pieces[i], terms, r.value);
      if r.Err? {
        CurveStops(pieces, terms, i + 1);
        return;
      }
    }
    assert pieces[..|pieces|] == pieces;
  }

  lemma {:induction false} CurveStops(pieces: seq<Piece>, terms: Terms, i: nat)
    requires UsableIntervals(terms.roundingIntervals)
    requires i <= |pieces| && CurveRanges(pieces[..i], terms).Err?
    ensures CurveRanges(pieces, terms) == CurveRanges(pieces[..i], terms)
    decreases |pieces|
  {
    if i < |pieces| {
      var init := pieces[..|pieces| - 1];
      assert init[..i] == pieces[..i];
      CurveStops(init, terms, i);
    } else {
      assert pieces[..i] == pieces;
    }
  }
}
