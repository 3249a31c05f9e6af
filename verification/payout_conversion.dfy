/** Model of the conversion of payout functions to and from their message form in
    dlc-manager/src/conversion_utils.rs. The message lists the left end point of
    each piece once and the right end point of the function separately. */
module PayoutConversion {

  import opened PayoutCurve

  datatype SerCurve =
    | SerPolynomial(points: seq<PayoutPoint>)
    | SerHyperbola(usePositivePiece: bool, translateOutcome: real, translatePayout: real, a: real, b: real, c: real,
                   d: real)

  datatype SerPiece = SerPiece(endPoint: PayoutPoint, curve: SerCurve)

  datatype SerPayoutFunction = SerPayoutFunction(pieces: seq<SerPiece>, lastEndpoint: PayoutPoint)

  /** The function pieces that can be converted. */
  predicate HasEnds(p: PayoutFunctionPiece) {
    p.Polynomial? ==> |p.points| >= 2
  }

  predicate AllHaveEnds(pieces: seq<PayoutFunctionPiece>) {
    forall i :: 0 <= i < |pieces| ==> HasEnds(pieces[i])
  }

  function ToSerPiece(p: PayoutFunctionPiece): SerPiece
    requires HasEnds(p)
  {
    match p
    case Polynomial(points) => SerPiece(points[0], SerPolynomial(points[1..][..|points| - 2]))
    case Hyperbola(left, _, positive, to, tp, a, b, c, d) => SerPiece(left, SerHyperbola(positive, to, tp, a, b, c, d))
  }

  function ToSer(pieces: seq<PayoutFunctionPiece>): SerPayoutFunction
    requires pieces != [] && AllHaveEnds(pieces)
  {
    SerPayoutFunction(seq(|pieces|, i requires 0 <= i < |pieces| => ToSerPiece(pieces[i])),
                      LastPoint(pieces[|pieces| - 1]))
  }

  function FromSerPiece(piece: SerPiece, rightEndPoint: PayoutPoint): PayoutFunctionPiece {
    match piece.curve
    case SerPolynomial(points) => Polynomial([piece.endPoint] + points + [rightEndPoint])
    case SerHyperbola(positive, to, tp, a, b, c, d) =>
      Hyperbola(piece.endPoint, rightEndPoint, positive, to, tp, a, b, c, d)
  }

  /** The left end points but the first, followed by the last end point. */
  function RightEndPoints(f: SerPayoutFunction): seq<PayoutPoint>
    requires f.pieces != []
  {
    seq(|f.pieces| - 1, i requires 0 <= i < |f.pieces| - 1 => f.pieces[i + 1].endPoint) + [f.lastEndpoint]
  }

  function FromSer(f: SerPayoutFunction): seq<PayoutFunctionPiece> {
    if f.pieces == [] then []
    else seq(|f.pieces|, i requires 0 <= i < |f.pieces| => FromSerPiece(f.pieces[i], RightEndPoints(f)[i]))
  }

  /** Each piece ends in the point in which the next one starts. */
  ghost predicate SharesEndPoints(pieces: seq<PayoutFunctionPiece>)
    requires AllHaveEnds(pieces)
  {
    forall i, j | 0 <= i < j == i + 1 < |pieces| :: LastPoint(pieces[i]) == FirstPoint(pieces[j])
  }

  /** For pieces of payout curves this is their continuity. */
  lemma SharingIsContinuity(pieces: seq<Piece>)
    ensures AllHaveEnds(pieces)
    ensures SharesEndPoints(pieces) <==> Continuous(pieces)
  {
    if Continuous(pieces) {
      forall i, j | 0 <= i < j == i + 1 < |pieces| ensures LastPoint(pieces[i]) == FirstPoint(pieces[j]) {
        assert MeetsNext(pieces, i);
      }
    }
    if SharesEndPoints(pieces) {
      forall i: nat | i + 1 < |pieces| ensures MeetsNext(pieces, i) {
        var j := i + 1;
        assert LastPoint(pieces[i]) == FirstPoint(pieces[j]);
      }
    }
  }

  /** A piece survives exactly when it is given back its own right end point. */
  lemma PieceRoundTrip(p: PayoutFunctionPiece, right: PayoutPoint)
    requires HasEnds(p)
    ensures FromSerPiece(ToSerPiece(p), right) == p <==> right == LastPoint(p)
  {
    match p
    case Polynomial(points) =>
      var back := FromSerPiece(ToSerPiece(p), right);
      assert |back.points| == |points| && forall i :: 0 <= i < |points| - 1 ==> back.points[i] == points[i];
      assert LastPoint(back) == right;
      if right == LastPoint(p) {
        assert back.points == points;
      }
    case Hyperbola(_, _, _, _, _, _, _, _, _) =>
  }

  lemma SerPieceRoundTrip(s: SerPiece, right: PayoutPoint)
    ensures HasEnds(FromSerPiece(s, right))
    ensures ToSerPiece(FromSerPiece(s, right)) == s
    ensures FirstPoint(FromSerPiece(s, right)) == s.endPoint && LastPoint(FromSerPiece(s, right)) == right
  {
    match s.curve
    case SerPolynomial(points) =>
      var all := [s.endPoint] + points + [right];
      assert all[1..][..|all| - 2] == points;
    case SerHyperbola(_, _, _, _, _, _, _) =>
  }

  lemma PieceComesBack(pieces: seq<PayoutFunctionPiece>, i: nat)
    requires i < |pieces| && AllHaveEnds(pieces)
    ensures |FromSer(ToSer(pieces))| == |pieces|
    ensures FromSer(ToSer(pieces))[i] == pieces[i] <==>
            (i + 1 < |pieces| ==> LastPoint(pieces[i]) == FirstPoint(pieces[i + 1]))
  {
    var f := ToSer(pieces);
    var right := RightEndPoints(f)[i];
    if i + 1 < |pieces| {
      assert right == f.pieces[i + 1].endPoint == FirstPoint(pieces[i + 1]);
    } else {
      assert right == LastPoint(pieces[i]);
    }
    PieceRoundTrip(pieces[i], right);
  }

  /** A payout function comes back unchanged from its message form exactly when
      it is continuous. */
  lemma FunctionRoundTrip(pieces: seq<PayoutFunctionPiece>)
    requires pieces != [] && AllHaveEnds(pieces)
    ensures FromSer(ToSer(pieces)) == pieces <==> SharesEndPoints(pieces)
  {
    var back := FromSer(ToSer(pieces));
    PieceComesBack(pieces, 0);
    if SharesEndPoints(pieces) {
      forall i | 0 <= i < |pieces| ensures back[i] == pieces[i] {
        PieceComesBack(pieces, i);
        var j := i + 1;
        assert j < |pieces| ==> LastPoint(pieces[i]) == FirstPoint(pieces[j]);
      }
      assert back == pieces;
    }
    if back == pieces {
      forall i, j | 0 <= i < j == i + 1 < |pieces| ensures LastPoint(pieces[i]) == FirstPoint(pieces[j]) {
        PieceComesBack(pieces, i);
      }
    }
  }

  /** Every message form with a piece is that of one continuous function. */
  lemma SerRoundTrip(f: SerPayoutFunction)
    requires f.pieces != []
    ensures var pieces := FromSer(f);
            pieces != [] && AllHaveEnds(pieces) && SharesEndPoints(pieces) && ToSer(pieces) == f
  {
    var pieces := FromSer(f);
    var n := |pieces|;
    forall i | 0 <= i < n
      ensures HasEnds(pieces[i]) && ToSerPiece(pieces[i]) == f.pieces[i]
      ensures FirstPoint(pieces[i]) == f.pieces[i].endPoint && LastPoint(pieces[i]) == RightEndPoints(f)[i]
    {
      SerPieceRoundTrip(f.pieces[i], RightEndPoints(f)[i]);
    }
    assert ToSer(pieces).pieces == f.pieces;
  }

  // ---- Where each point and coefficient goes ----

  /** The message piece for a piece: its left end point, and its inner points in their
      order, or its coefficients under their own names. */
  predicate Carries(s: SerPiece, p: PayoutFunctionPiece)
    requires HasEnds(p)
  {
    && s.endPoint == FirstPoint(p)
    && s.curve.SerPolynomial? == p.Polynomial?
    && (p.Polynomial? ==>
          && |s.curve.points| == |p.points| - 2
          && forall j :: 0 <= j < |s.curve.points| ==> s.curve.points[j] == p.points[j + 1])
    && (p.Hyperbola? ==>
          && s.curve.usePositivePiece == p.usePositivePiece
          && s.curve.translateOutcome == p.translateOutcome && s.curve.translatePayout == p.translatePayout
          && s.curve.a == p.a && s.curve.b == p.b && s.curve.c == p.c && s.curve.d == p.d)
  }

  lemma CarriesPoints(p: PayoutFunctionPiece)
    requires HasEnds(p)
    ensures Carries(ToSerPiece(p), p)
  {
    if p.Polynomial? {
      var inner := p.points[1..][..|p.points| - 2];
      assert forall j :: 0 <= j < |inner| ==> inner[j] == p.points[j + 1];
    }
  }

  lemma ReadsPoints(s: SerPiece, right: PayoutPoint)
    ensures HasEnds(FromSerPiece(s, right)) && Carries(s, FromSerPiece(s, right))
    ensures LastPoint(FromSerPiece(s, right)) == right
  {
  }

  /** The message lists the pieces in order, each with its left end point and what is
      inside, and the last end point of the function. */
  lemma MessageOf(pieces: seq<PayoutFunctionPiece>, i: nat)
    requires i < |pieces| && AllHaveEnds(pieces)
    ensures |ToSer(pieces).pieces| == |pieces| && Carries(ToSer(pieces).pieces[i], pieces[i])
    ensures ToSer(pieces).lastEndpoint == LastPoint(pieces[|pieces| - 1])
  {
    CarriesPoints(pieces[i]);
  }

  /** A message is read piece by piece in the same way; each piece ends where the next one
      starts, and the last one in the last end point. */
  lemma FunctionOf(f: SerPayoutFunction, i: nat)
    requires i < |f.pieces|
    ensures |FromSer(f)| == |f.pieces| && HasEnds(FromSer(f)[i]) && Carries(f.pieces[i], FromSer(f)[i])
    ensures LastPoint(FromSer(f)[i]) == if i + 1 < |f.pieces| then f.pieces[i + 1].endPoint else f.lastEndpoint
  {
    ReadsPoints(f.pieces[i], RightEndPoints(f)[i]);
  }

  /** From the end point of a message piece through its inner points to the next end point. */
  function PointsOf(f: SerPayoutFunction, i: nat): seq<PayoutPoint>
    requires i < |f.pieces| && f.pieces[i].curve.SerPolynomial?
  {
    [f.pieces[i].endPoint] + f.pieces[i].curve.points
    + [if i + 1 < |f.pieces| then f.pieces[i + 1].endPoint else f.lastEndpoint]
  }

  /** A polynomial piece of a message is one of a payout curve exactly when its points
      ascend. */
  lemma AscendingMessage(f: SerPayoutFunction, i: nat)
    requires i < |f.pieces| && f.pieces[i].curve.SerPolynomial?
    ensures |FromSer(f)| == |f.pieces| && FromSer(f)[i].Polynomial?
    ensures Ascending(FromSer(f)[i].points) <==> Ascending(PointsOf(f, i))
  {
    FunctionOf(f, i);
    var points := FromSer(f)[i].points;
    assert forall j :: 0 <= j < |points| ==> points[j] == PointsOf(f, i)[j];
  }
}
