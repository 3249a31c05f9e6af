/** What the pieces of a payout curve evaluate to: the polynomial through the points,
    which is the only one of its degree, and a point of the hyperbola. */
module PayoutInterpolation {

  import opened Results
  import opened PayoutCurve
  import opened PayoutPieces

  // ---- Polynomials by their coefficients, the constant one first ----

  function Horner(cs: seq<real>, x: real): real {
    if cs == [] then 0.0 else cs[0] + x * Horner(cs[1..], x)
  }

  function Max(a: nat, b: nat): nat {
    if a <= b then b else a
  }

  function Plus(a: seq<real>, b: seq<real>): (r: seq<real>)
    ensures |r| == Max(|a|, |b|)
  {
    if a == [] then b else if b == [] then a else [a[0] + b[0]] + Plus(a[1..], b[1..])
  }

  function Scaled(c: real, a: seq<real>): (r: seq<real>)
    ensures |r| == |a|
  {
    if a == [] then [] else [c * a[0]] + Scaled(c, a[1..])
  }

  /** The product with `x - r`. */
  function TimesRoot(a: seq<real>, r: real): seq<real> {
    Plus([0.0] + a, Scaled(-r, a))
  }

  /** The quotient by `x - r`, the remainder left out. */
  function Quotient(a: seq<real>, r: real): (q: seq<real>)
    ensures |q| == if a == [] then 0 else |a| - 1
  {
    if a == [] then [] else Plus(a[1..], Scaled(r, Quotient(a[1..], r)))
  }

  lemma {:induction false} PlusValue(a: seq<real>, b: seq<real>, x: real)
    ensures Horner(Plus(a, b), x) == Horner(a, x) + Horner(b, x)
  {
    if a != [] && b != [] {
      PlusValue(a[1..], b[1..], x);
      var u, v := Horner(a[1..], x), Horner(b[1..], x);
      Distribute(x, u, v);
      assert Plus(a, b)[1..] == Plus(a[1..], b[1..]);
    }
  }

  lemma Distribute(x: real, u: real, v: real)
    ensures x * (u + v) == x * u + x * v
  {
  }

  lemma {:induction false} ScaledValue(c: real, a: seq<real>, x: real)
    ensures Horner(Scaled(c, a), x) == c * Horner(a, x)
  {
    if a != [] {
      ScaledValue(c, a[1..], x);
      var u := Horner(a[1..], x);
      Distribute(c, a[0], x * u);
      assert x * (c * u) == c * (x * u);
      assert Scaled(c, a)[1..] == Scaled(c, a[1..]);
    }
  }

  lemma TimesRootValue(a: seq<real>, r: real, x: real)
    ensures Horner(TimesRoot(a, r), x) == (x - r) * Horner(a, x)
  {
    PlusValue([0.0] + a, Scaled(-r, a), x);
    ScaledValue(-r, a, x);
    assert ([0.0] + a)[1..] == a;
    assert (x - r) * Horner(a, x) == x * Horner(a, x) + -r * Horner(a, x);
  }

  lemma HeadValue(a: seq<real>, x: real, u: real)
    requires a != [] && u == Horner(a[1..], x)
    ensures Horner(a, x) == a[0] + x * u
  {
  }

  lemma QuotientHead(a: seq<real>, r: real, x: real, u: real, w: real)
    requires a != [] && u == Horner(a[1..], x) && w == Horner(Quotient(a[1..], r), x)
    ensures Horner(Quotient(a, r), x) == u + r * w
  {
    var q := Quotient(a[1..], r);
    PlusValue(a[1..], Scaled(r, q), x);
    ScaledValue(r, q, x);
  }

  lemma QuotientStep(a: seq<real>, r: real, x: real, u: real, v: real, w: real)
    requires a != [] && u - v == (x - r) * w
    requires u == Horner(a[1..], x) && v == Horner(a[1..], r) && w == Horner(Quotient(a[1..], r), x)
    ensures Horner(a, x) - Horner(a, r) == (x - r) * Horner(Quotient(a, r), x)
  {
    QuotientHead(a, r, x, u, w);
    HeadValue(a, x, u);
    HeadValue(a, r, v);
    Synthetic(x, r, u, v, w, a[0], Horner(a, x), Horner(a, r), Horner(Quotient(a, r), x));
  }

  lemma {:induction false} QuotientValue(a: seq<real>, r: real, x: real)
    ensures Horner(a, x) - Horner(a, r) == (x - r) * Horner(Quotient(a, r), x)
  {
    if a != [] {
      QuotientValue(a[1..], r, x);
      QuotientStep(a, r, x, Horner(a[1..], x), Horner(a[1..], r), Horner(Quotient(a[1..], r), x));
    }
  }

  lemma Synthetic(x: real, r: real, u: real, v: real, w: real, a0: real, hx: real, hr: real, h: real)
    requires u - v == (x - r) * w && h == u + r * w && hx == a0 + x * u && hr == a0 + r * v
    ensures hx - hr == (x - r) * h
  {
    assert r * (u - v) == r * ((x - r) * w) == (x - r) * (r * w);
    assert (x - r) * h == (x - r) * u + (x - r) * (r * w);
    assert x * u - r * v == (x - r) * u + r * (u - v);
  }

  predicate StrictlyIncreasing(xs: seq<real>) {
    forall i, j :: 0 <= i < j < |xs| ==> xs[i] < xs[j]
  }

  /** A polynomial with as many roots as coefficients is zero everywhere. */
  lemma {:induction false} RootsForceZero(a: seq<real>, roots: seq<real>, x: real)
    requires StrictlyIncreasing(roots) && |a| <= |roots|
    requires forall k :: 0 <= k < |roots| ==> Horner(a, roots[k]) == 0.0
    ensures Horner(a, x) == 0.0
    decreases |a|
  {
    if a != [] {
      var r, others := roots[0], roots[1..];
      var q := Quotient(a, r);
      forall k | 0 <= k < |others| ensures Horner(q, others[k]) == 0.0 {
        QuotientValue(a, r, others[k]);
        assert others[k] == roots[k + 1] && Horner(a, roots[k + 1]) == 0.0;
        NoZeroFactor(others[k] - r, Horner(q, others[k]));
      }
      RootsForceZero(q, others, x);
      QuotientValue(a, r, x);
    }
  }

  lemma NoZeroFactor(u: real, v: real)
    requires u != 0.0 && u * v == 0.0
    ensures v == 0.0
  {
  }

  // ---- The interpolation as a polynomial ----

  function Outcome(points: seq<PayoutPoint>, j: nat): real
    requires j < |points|
  {
    points[j].eventOutcome as real
  }

  function TermPolynomial(points: seq<PayoutPoint>, i: nat, n: nat): (r: seq<real>)
    requires Ascending(points) && i < |points| && n <= |points|
    ensures |r| == if i < n then n else n + 1
    decreases n
  {
    if n == 0 then [PrecisePayout(points[i])]
    else if n - 1 == i then TermPolynomial(points, i, n - 1)
    else
      assert points[i].eventOutcome != points[n - 1].eventOutcome by { assert i < n - 1 || n - 1 < i; }
      Scaled(1.0 / (Outcome(points, i) - Outcome(points, n - 1)),
             TimesRoot(TermPolynomial(points, i, n - 1), Outcome(points, n - 1)))
  }

  lemma Rearranged(t: real, u: real, d: real)
    requires d != 0.0
    ensures 1.0 / d * (u * t) == t * (u / d)
  {
    var i := 1.0 / d;
    var q := u / d;
    assert q * d == u && d * i == 1.0;
    assert u * i == q * (d * i) == q;
    assert i * (u * t) == t * (u * i);
  }

  lemma TimesFactorValue(t: seq<real>, r: real, d: real, x: real, l: real, f: real)
    requires d != 0.0 && l == Horner(t, x) && f == (x - r) / d
    ensures Horner(Scaled(1.0 / d, TimesRoot(t, r)), x) == l * f
  {
    var i, w := 1.0 / d, Horner(TimesRoot(t, r), x);
    assert Horner(Scaled(i, TimesRoot(t, r)), x) == i * w by {
      ScaledValue(i, TimesRoot(t, r), x);
    }
    assert w == (x - r) * l by {
      TimesRootValue(t, r, x);
    }
    Rearranged(l, x - r, d);
  }

  lemma {:induction false} TermValue(points: seq<PayoutPoint>, i: nat, x: nat, n: nat)
    requires Ascending(points) && i < |points| && n <= |points|
    ensures Horner(TermPolynomial(points, i, n), x as real) == LagrangeTerm(points, i, x, n)
    decreases n
  {
    if n == 0 {
      HeadValue(TermPolynomial(points, i, 0), x as real, 0.0);
    } else {
      TermValue(points, i, x, n - 1);
      if n - 1 != i {
        TermStep(points, i, x, n, LagrangeTerm(points, i, x, n - 1));
      }
    }
  }

  /** The interpolation with one more factor, as polynomial and as value. */
  lemma NextTerm(points: seq<PayoutPoint>, i: nat, n: nat, d: real)
    requires Ascending(points) && i < |points| && 0 < n <= |points| && n - 1 != i
    requires d == Outcome(points, i) - Outcome(points, n - 1)
    ensures d != 0.0
    ensures TermPolynomial(points, i, n) ==
            Scaled(1.0 / d, TimesRoot(TermPolynomial(points, i, n - 1), Outcome(points, n - 1)))
  {
    assert points[i].eventOutcome != points[n - 1].eventOutcome by { assert i < n - 1 || n - 1 < i; }
  }

  lemma NextTermValue(points: seq<PayoutPoint>, i: nat, n: nat, x: real, d: real, l: real, f: real)
    requires Ascending(points) && i < |points| && 0 < n <= |points| && n - 1 != i
    requires d == Outcome(points, i) - Outcome(points, n - 1) && d != 0.0 && f == (x - Outcome(points, n - 1)) / d
    requires l == Horner(TermPolynomial(points, i, n - 1), x)
    ensures Horner(TermPolynomial(points, i, n), x) == l * f
  {
    NextTerm(points, i, n, d);
    TimesFactorValue(TermPolynomial(points, i, n - 1), Outcome(points, n - 1), d, x, l, f);
  }

  lemma NextFactor(points: seq<PayoutPoint>, i: nat, x: nat, n: nat, d: real, l: real, f: real)
    requires Ascending(points) && i < |points| && 0 < n <= |points| && n - 1 != i
    requires d == Outcome(points, i) - Outcome(points, n - 1) && d != 0.0
    requires f == (x as real - Outcome(points, n - 1)) / d && l == LagrangeTerm(points, i, x, n - 1)
    ensures LagrangeTerm(points, i, x, n) == l * f
  {
  }

  lemma TermStep(points: seq<PayoutPoint>, i: nat, x: nat, n: nat, l: real)
    requires Ascending(points) && i < |points| && 0 < n <= |points| && n - 1 != i
    requires l == LagrangeTerm(points, i, x, n - 1) && l == Horner(TermPolynomial(points, i, n - 1), x as real)
    ensures Horner(TermPolynomial(points, i, n), x as real) == LagrangeTerm(points, i, x, n)
  {
    var d := Outcome(points, i) - Outcome(points, n - 1);
    assert d != 0.0 by {
      NextTerm(points, i, n, d);
    }
    var f := (x as real - Outcome(points, n - 1)) / d;
    NextTermValue(points, i, n, x as real, d, l, f);
    NextFactor(points, i, x, n, d, l, f);
  }

  function SumPolynomial(points: seq<PayoutPoint>, n: nat): (r: seq<real>)
    requires Ascending(points) && n <= |points|
    ensures |r| <= |points|
  {
    if n == 0 then [] else Plus(SumPolynomial(points, n - 1), TermPolynomial(points, n - 1, |points|))
  }

  lemma {:induction false} SumValue(points: seq<PayoutPoint>, x: nat, n: nat)
    requires Ascending(points) && n <= |points|
    ensures Horner(SumPolynomial(points, n), x as real) == LagrangeSum(points, x, n)
    decreases n
  {
    if n > 0 {
      var sum, term := SumPolynomial(points, n - 1), TermPolynomial(points, n - 1, |points|);
      assert Horner(sum, x as real) == LagrangeSum(points, x, n - 1) by {
        SumValue(points, x, n - 1);
      }
      assert Horner(term, x as real) == LagrangeTerm(points, n - 1, x, |points|) by {
        TermValue(points, n - 1, x, |points|);
      }
      PlusValue(sum, term, x as real);
    }
  }

  /** Two polynomials with at most as many coefficients as there are points, and the same
      values at the points, have the same value everywhere. */
  lemma SameAtPoints(points: seq<PayoutPoint>, a: seq<real>, b: seq<real>, x: real)
    requires Ascending(points) && |a| <= |points| && |b| <= |points|
    requires forall k: nat | k < |points| :: Horner(a, Outcome(points, k)) == Horner(b, Outcome(points, k))
    ensures Horner(a, x) == Horner(b, x)
  {
    var difference := Plus(a, Scaled(-1.0, b));
    var roots := seq(|points|, k requires 0 <= k < |points| => Outcome(points, k));
    forall k | 0 <= k < |roots| ensures Horner(difference, roots[k]) == 0.0 {
      assert Horner(a, Outcome(points, k)) == Horner(b, Outcome(points, k));
      PlusValue(a, Scaled(-1.0, b), roots[k]);
      ScaledValue(-1.0, b, roots[k]);
    }
    RootsForceZero(difference, roots, x);
    PlusValue(a, Scaled(-1.0, b), x);
    ScaledValue(-1.0, b, x);
  }

  // ---- What the pieces evaluate to ----

  /** What a polynomial piece pays at one of its points: extra precision counts from
      three points on, in units of a 65536th. */
  function Target(p: Piece, k: nat): real
    requires p.Polynomial? && k < |p.points|
  {
    var point := p.points[k];
    if |p.points| == 2 then point.outcomePayout as real
    else (point.outcomePayout * 65536 + point.extraPrecision) as real / 65536.0
  }

  predicate TakesTargets(p: Piece, cs: seq<real>)
    requires p.Polynomial?
  {
    forall k: nat | k < |p.points| :: Horner(cs, Outcome(p.points, k)) == Target(p, k)
  }

  /** The line through two points by its coefficients. */
  function LinePolynomial(left: PayoutPoint, right: PayoutPoint): seq<real>
    requires left.eventOutcome < right.eventOutcome
  {
    [left.outcomePayout as real - left.eventOutcome as real * Slope(left, right), Slope(left, right)]
  }

  lemma LineValue(left: PayoutPoint, right: PayoutPoint, x: nat)
    requires left.eventOutcome < right.eventOutcome
    ensures Horner(LinePolynomial(left, right), x as real) == Line(left, right, x)
  {
    var cs, s, l := LinePolynomial(left, right), Slope(left, right), left.eventOutcome as real;
    assert cs[1..] == [s] && [s][1..] == [];
    assert Horner([s], x as real) == s;
    assert (x as real - l) * s == x as real * s - l * s;
  }

  lemma FlatLine(left: PayoutPoint, right: PayoutPoint, x: nat)
    requires left.eventOutcome < right.eventOutcome && left.outcomePayout == right.outcomePayout
    ensures Line(left, right, x) == right.outcomePayout as real
  {
    assert Slope(left, right) == 0.0;
  }

  /** The coefficients of a polynomial piece. */
  function Coefficients(p: Piece): (cs: seq<real>)
    requires p.Polynomial?
    ensures |cs| <= |p.points|
  {
    if |p.points| == 2 then LinePolynomial(p.points[0], p.points[1]) else SumPolynomial(p.points, |p.points|)
  }

  lemma CoefficientsValue(p: Piece, x: nat, sqrt: real -> real)
    requires p.Polynomial?
    ensures Evaluate(p, x, sqrt) == Some(Horner(Coefficients(p), x as real))
  {
    if |p.points| == 2 {
      LineValue(p.points[0], p.points[1], x);
      if IsConstant(p) {
        FlatLine(p.points[0], p.points[1], x);
      }
    } else {
      SumValue(p.points, x, |p.points|);
    }
  }

  /** There is a polynomial that takes the payouts at the points, with at most as many
      coefficients as there are points. */
  lemma CoefficientsTakeTargets(p: Piece)
    requires p.Polynomial?
    ensures TakesTargets(p, Coefficients(p))
  {
    forall k: nat | k < |p.points| ensures Horner(Coefficients(p), Outcome(p.points, k)) == Target(p, k) {
      if |p.points| == 2 {
        LineEnds(p.points[0], p.points[1]);
        LineValue(p.points[0], p.points[1], p.points[k].eventOutcome);
      } else {
        SumValue(p.points, p.points[k].eventOutcome, |p.points|);
        InterpolatesPoints(p.points, k);
        assert PrecisePayout(p.points[k]) == Target(p, k);
      }
    }
  }

  /** A polynomial piece takes its payouts at its points, and everywhere it is the value
      of whichever polynomial of that length does. */
  lemma EvaluatesPolynomial(p: Piece, cs: seq<real>, x: nat, sqrt: real -> real)
    requires p.Polynomial? && |cs| <= |p.points| && TakesTargets(p, cs)
    ensures Evaluate(p, x, sqrt) == Some(Horner(cs, x as real))
  {
    var own := Coefficients(p);
    CoefficientsValue(p, x, sqrt);
    CoefficientsTakeTargets(p);
    forall k: nat | k < |p.points| ensures Horner(cs, Outcome(p.points, k)) == Horner(own, Outcome(p.points, k)) {
      assert Horner(cs, Outcome(p.points, k)) == Target(p, k);
      assert Horner(own, Outcome(p.points, k)) == Target(p, k);
    }
    SameAtPoints(p.points, cs, own, x as real);
  }

  lemma EvaluatesAtPoint(p: Piece, k: nat, sqrt: real -> real)
    requires p.Polynomial? && k < |p.points|
    ensures Evaluate(p, p.points[k].eventOutcome, sqrt) == Some(Target(p, k))
  {
    CoefficientsValue(p, p.points[k].eventOutcome, sqrt);
    CoefficientsTakeTargets(p);
    assert Horner(Coefficients(p), Outcome(p.points, k)) == Target(p, k);
  }

  /** The image of the hyperbola of all `(z, 1 / z)` under the matrix and the translation
      of the piece. */
  predicate OnHyperbola(p: PayoutFunctionPiece, x: nat, payout: real, z: real)
    requires p.Hyperbola?
  {
    && z != 0.0
    && x as real - p.translateOutcome == p.a * z + p.b / z
    && payout - p.translatePayout == p.c * z + p.d / z
  }

  /** The square root is one for this argument. */
  predicate SquaresBack(sqrt: real -> real, q: real) {
    sqrt(q) >= 0.0 && sqrt(q) * sqrt(q) == q
  }

  /** Of the two points with the same outcome, the one that the piece asks for. */
  predicate OnBranch(p: PayoutFunctionPiece, x: nat, z: real)
    requires p.Hyperbola?
  {
    if p.usePositivePiece then 2.0 * p.a * z >= Translated(p, x) else 2.0 * p.a * z <= Translated(p, x)
  }

  lemma RootSquares(p: Piece, x: nat, sqrt: real -> real)
    requires p.Hyperbola? && SquaresBack(sqrt, Radicand(p, x))
    ensures Root(p, x, sqrt) * Root(p, x, sqrt) == Radicand(p, x)
    ensures if p.usePositivePiece then Root(p, x, sqrt) >= 0.0 else Root(p, x, sqrt) <= 0.0
  {
    SameSquare(sqrt(Radicand(p, x)), Root(p, x, sqrt), Radicand(p, x));
  }

  lemma HyperbolaValueIsPoint(p: Piece, x: nat, sqrt: real -> real) returns (z: real)
    requires p.Hyperbola? && Evaluate(p, x, sqrt).Some? && SquaresBack(sqrt, Radicand(p, x))
    ensures OnHyperbola(p, x, Evaluate(p, x, sqrt).value, z) && OnBranch(p, x, z)
  {
    var root := Root(p, x, sqrt);
    assert root * root == Radicand(p, x) && if p.usePositivePiece then root >= 0.0 else root <= 0.0 by {
      RootSquares(p, x, sqrt);
    }
    z := ImagePoint(p, x, Translated(p, x) + root, root, Evaluate(p, x, sqrt).value);
    BranchOfRoot(p, x, root, z);
  }

  lemma BranchOfRoot(p: PayoutFunctionPiece, x: nat, root: real, z: real)
    requires p.Hyperbola? && 2.0 * p.a * z == Translated(p, x) + root
    requires if p.usePositivePiece then root >= 0.0 else root <= 0.0
    ensures OnBranch(p, x, z)
  {
  }

  /** The square root of a point of the branch is the one the code takes. */
  lemma RootAtPoint(p: Piece, x: nat, sqrt: real -> real, payout: real, z: real)
    requires p.Hyperbola? && p.a != 0.0 && OnHyperbola(p, x, payout, z) && OnBranch(p, x, z)
    requires Radicand(p, x) >= 0.0 ==> SquaresBack(sqrt, Radicand(p, x))
    ensures Radicand(p, x) >= 0.0 && Translated(p, x) + Root(p, x, sqrt) == 2.0 * p.a * z
  {
    var t, q := Translated(p, x), Radicand(p, x);
    var root := 2.0 * p.a * z - t;
    assert root * root == q by {
      RootOfPoint(t, root, p.a, p.b, z);
    }
    SquareIsPositive(root, q);
    RootSquares(p, x, sqrt);
    SameRoot(Root(p, x, sqrt), root, q);
  }

  lemma HyperbolaPointIsValue(p: Piece, x: nat, sqrt: real -> real, payout: real, z: real)
    requires p.Hyperbola? && p.a != 0.0 && OnHyperbola(p, x, payout, z) && OnBranch(p, x, z)
    requires Radicand(p, x) >= 0.0 ==> SquaresBack(sqrt, Radicand(p, x))
    ensures Evaluate(p, x, sqrt) == Some(payout)
  {
    RootAtPoint(p, x, sqrt, payout, z);
    PointPayout(p, x, 2.0 * p.a * z, payout, z);
  }

  lemma PointPayout(p: PayoutFunctionPiece, x: nat, sum: real, payout: real, z: real)
    requires p.Hyperbola? && p.a != 0.0 && sum == 2.0 * p.a * z && OnHyperbola(p, x, payout, z)
    ensures sum != 0.0 && PayoutFromSum(p, sum) == payout
  {
    NonZeroProduct(2.0 * p.a, z);
    HyperbolaPayout(sum, p.a, p.c, p.d, z);
  }

  /** The value of a hyperbola piece at an outcome is the payout of the point of the
      hyperbola there, if there is one on the branch that the piece asks for. */
  lemma EvaluatesHyperbola(p: Piece, x: nat, sqrt: real -> real, payout: real)
    requires p.Hyperbola? && p.a != 0.0 && (Radicand(p, x) >= 0.0 ==> SquaresBack(sqrt, Radicand(p, x)))
    ensures Evaluate(p, x, sqrt) == Some(payout) <==> exists z :: OnHyperbola(p, x, payout, z) && OnBranch(p, x, z)
  {
    if Evaluate(p, x, sqrt) == Some(payout) {
      var z := HyperbolaValueIsPoint(p, x, sqrt);
    }
    if z :| OnHyperbola(p, x, payout, z) && OnBranch(p, x, z) {
      HyperbolaPointIsValue(p, x, sqrt, payout, z);
    }
  }

  lemma RootOfPoint(t: real, root: real, a: real, b: real, z: real)
    requires z != 0.0 && t == a * z + b / z && root == 2.0 * a * z - t
    ensures root * root == t * t - 4.0 * a * b
  {
    var q := b / z;
    assert z * q == b;
    assert root == a * z - q;
    assert root * root == t * t - 4.0 * (a * z * q);
    assert a * z * q == a * (z * q) == a * b;
  }

  lemma SquareIsPositive(root: real, square: real)
    requires root * root == square
    ensures square >= 0.0
  {
  }

  lemma SameRoot(r: real, s: real, square: real)
    requires r * r == square && s * s == square && ((r >= 0.0 && s >= 0.0) || (r <= 0.0 && s <= 0.0))
    ensures r == s
  {
    assert (r - s) * (r + s) == 0.0;
    if r != s {
      NoZeroFactor(r - s, r + s);
    }
  }

  lemma NonZeroProduct(u: real, v: real)
    requires u != 0.0 && v != 0.0
    ensures u * v != 0.0
  {
  }

  lemma ImagePoint(p: PayoutFunctionPiece, x: nat, sum: real, root: real, payout: real) returns (z: real)
    requires p.Hyperbola? && p.a != 0.0 && sum != 0.0 && sum == Translated(p, x) + root && root * root == Radicand(p, x)
    requires payout == PayoutFromSum(p, sum)
    ensures OnHyperbola(p, x, payout, z) && 2.0 * p.a * z == sum
  {
    z := sum / (2.0 * p.a);
    HyperbolaPoint(Translated(p, x), root, Radicand(p, x), p.a, p.b, z);
    HyperbolaPayout(sum, p.a, p.c, p.d, z);
  }

  lemma SameSquare(s: real, root: real, square: real)
    requires s * s == square && (root == s || root == -s)
    ensures root * root == square
  {
  }

  lemma HyperbolaPoint(t: real, root: real, radicand: real, a: real, b: real, z: real)
    requires a != 0.0 && t + root != 0.0 && root * root == radicand == t * t - 4.0 * a * b
    requires z == (t + root) / (2.0 * a)
    ensures z != 0.0 && 2.0 * a * z == t + root && t == a * z + b / z
  {
    assert 2.0 * a * z == t + root;
    assert (t + root) * (t - root) == t * t - root * root == 4.0 * a * b;
    assert 2.0 * a * (z * (t - root)) == 2.0 * a * z * (t - root) == 4.0 * a * b == 2.0 * a * (2.0 * b);
    Cancel(2.0 * a, z * (t - root), 2.0 * b);
    DivisionIs(b, z, (t - root) / 2.0);
  }

  lemma Cancel(u: real, v: real, w: real)
    requires u != 0.0 && u * v == u * w
    ensures v == w
  {
    assert u * (v - w) == 0.0;
    NoZeroFactor(u, v - w);
  }

  lemma DivisionIs(b: real, z: real, q: real)
    requires z != 0.0 && z * q == b
    ensures b / z == q
  {
    assert z * (b / z) == b;
    Cancel(z, b / z, q);
  }

  lemma HyperbolaPayout(w: real, a: real, c: real, d: real, z: real)
    requires a != 0.0 && w != 0.0 && z != 0.0 && 2.0 * a * z == w
    ensures c * w / (2.0 * a) + 2.0 * a * d / w == c * z + d / z
  {
  }
}
