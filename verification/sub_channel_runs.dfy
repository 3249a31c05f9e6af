/** Whole runs of a pair: any number of sub channels opened and closed with any number
    of disconnects in between, and what it does to the balances. */
module SubChannelRuns {

  import opened Results
  import opened ChannelTypes
  import opened SubChannels
  import opened SubChannelActions
  import opened SubChannelPair
  import opened SubChannelRecovery

  /** How far a negotiation that `x` started has got. */
  function Progress(s: SubPair): nat {
    if Is(s.x, FlagOffered) then (if Is(s.y, FlagOffered) then 2 else if Is(s.y, FlagAccepted) then 3 else 1)
    else if Is(s.x, FlagConfirmed) then (if Is(s.y, FlagAccepted) then 4 else 5)
    else if Is(s.y, FlagFinalized) then 6
    else if Is(s.x, FlagSigned) then 7
    else if Is(s.x, FlagCloseOffered) then
      (if Is(s.y, FlagSigned) then 8 else if Is(s.y, FlagCloseOffered) then 9 else 10)
    else if Is(s.x, FlagCloseConfirmed) then (if Is(s.y, FlagCloseAccepted) then 11 else 12)
    else 13
  }

  lemma EstablishingReplyProgresses(s: SubPair)
    requires Common(s) && (AcceptSent(s) || RejectSent(s) || FinalizeSent(s))
    ensures Receive(s.x, s.yx[0]).Ok? && Progress(MoveLeft(s, Deliver)) > Progress(s)
  {
    if AcceptSent(s) {
      AcceptDelivered(s);
    } else if RejectSent(s) {
      RejectDelivered(s);
    } else {
      FinalizeDelivered(s);
    }
  }

  lemma AcceptanceProgresses(s: SubPair)
    requires Common(s) && s.yx != [] && CloseAcceptSent(s) && FeeKept(s.x)
    ensures Receive(s.x, s.yx[0]).Ok? && Progress(MoveLeft(s, Deliver)) > Progress(s)
  {
    CloseAcceptTakenIff(s);
    CloseAcceptDelivered(s);
  }

  lemma ClosingEnds(s: SubPair)
    requires Common(s) && CloseFinalizeSent(s)
    ensures Receive(s.x, s.yx[0]).Ok? && Progress(MoveLeft(s, Deliver)) > Progress(s)
  {
    CloseFinalizeDelivered(s);
  }

  /** The closing is stuck: it has been accepted, but the two disagree on the fee. */
  predicate FeeMismatch(s: SubPair) {
    CloseAcceptSent(s) && !FeeKept(s.x)
  }

  lemma ReplyProgresses(s: SubPair)
    requires Common(s) && Negotiating(s) && s.yx != []
    ensures Receive(s.x, s.yx[0]).Ok? <==> !FeeMismatch(s)
    ensures FeeMismatch(s) || Progress(MoveLeft(s, Deliver)) > Progress(s)
            || (s.yx[0].RejectOffer? && BothSigned(MoveLeft(s, Deliver)))
  {
    if FeeMismatch(s) {
      CloseAcceptTakenIff(s);
    } else if CloseRejectSent(s) {
      CloseRejectDelivered(s);
    } else if CloseAcceptSent(s) {
      AcceptanceProgresses(s);
    } else if CloseFinalizeSent(s) {
      ClosingEnds(s);
    } else {
      EstablishingReplyProgresses(s);
    }
  }

  lemma EstablishingRequestProgresses(s: SubPair)
    requires Common(s) && (OfferSent(s) || ConfirmSent(s) || RevokeSent(s))
    ensures Receive(s.y, s.xy[0]).Ok? && Progress(MoveRight(s, Deliver)) > Progress(s)
  {
    if OfferSent(s) {
      OfferDelivered(s);
    } else if ConfirmSent(s) {
      ConfirmDelivered(s);
    } else {
      RevokeDelivered(s);
    }
  }

  lemma RequestProgresses(s: SubPair)
    requires Common(s) && Negotiating(s) && s.xy != []
    ensures Receive(s.y, s.xy[0]).Ok?
    ensures Progress(MoveRight(s, Deliver)) > Progress(s)
  {
    if CloseOfferSent(s) {
      CloseOfferDelivered(s);
    } else if CloseConfirmSent(s) {
      CloseConfirmDelivered(s);
    } else {
      EstablishingRequestProgresses(s);
    }
  }

  /** One message only is ever refused: the acceptance of a close offer, when the sub
      channel was opened at another fee than its first. Every other one brings the
      negotiation forward or ends it with a rejection, and when none is under way it is
      for the other party to decide, or the closing is stuck for that reason. */
  lemma DeliveryProgresses(s: SubPair)
    requires Common(s) && Negotiating(s)
    ensures s.yx != [] ==>
              && (Receive(s.x, s.yx[0]).Ok? <==> !FeeMismatch(s))
              && (FeeMismatch(s) || Progress(MoveLeft(s, Deliver)) > Progress(s)
                  || (s.yx[0].RejectOffer? && BothSigned(MoveLeft(s, Deliver))))
    ensures s.xy != [] ==> Receive(s.y, s.xy[0]).Ok? && Progress(MoveRight(s, Deliver)) > Progress(s)
    ensures s.xy == [] && s.yx == [] ==> OfferHeld(s) || CloseOfferHeld(s) || FeeMismatch(s)
  {
    if s.yx != [] {
      ReplyProgresses(s);
    }
    if s.xy != [] {
      RequestProgresses(s);
    }
  }

  // ---- Runs ----

  datatype Turn =
    | Left(move: Move) | Right(move: Move) | Disconnect(xRounds: nat, yRounds: nat) | Rearrange(payout: Option<nat>)

  function WithPayouts(n: SubNode, payouts: Option<(nat, nat)>): SubNode
    requires Is(n, FlagSigned)
  {
    InState(n, SignedState(n.sub.value.state.signed.(payouts := payouts)))
  }

  /** The DLC channel inside is settled, for this payout of `x`, or renewed. Both
      parties have to be in the signed state for it. */
  function Rearranged(s: SubPair, payout: Option<nat>): SubPair {
    if !Is(s.x, FlagSigned) || !Is(s.y, FlagSigned) then s
    else if payout.None? then s.(x := WithPayouts(s.x, None), y := WithPayouts(s.y, None))
    else
      var stake := Stake(s.x.sub.value.state.signed.split.terms);
      if payout.value > stake then s
      else
        s.(x := WithPayouts(s.x, Some((payout.value, stake - payout.value))),
           y := WithPayouts(s.y, Some((stake - payout.value, payout.value))))
  }

  function Take(s: SubPair, t: Turn): SubPair {
    match t
    case Left(m) => MoveLeft(s, m)
    case Right(m) => MoveRight(s, m)
    case Disconnect(xRounds, yRounds) => ReconnectAfter(s, xRounds, yRounds)
    case Rearrange(payout) => Rearranged(s, payout)
  }

  function Play(s: SubPair, turns: seq<Turn>): SubPair {
    if turns == [] then s else Take(Play(s, turns[..|turns| - 1]), turns[|turns| - 1])
  }

  /** No disconnect of the run comes at a bad moment. */
  predicate DisconnectsWell(s: SubPair, turns: seq<Turn>) {
    turns == [] ||
    var before, last := turns[..|turns| - 1], turns[|turns| - 1];
    && DisconnectsWell(s, before)
    && (last.Disconnect? ==> NothingLostForGood(Play(s, before)))
  }

  lemma PayoutsOk(n: SubNode, payouts: Option<(nat, nat)>)
    requires NodeOk(n) && Is(n, FlagSigned)
    requires payouts.Some? ==> payouts.value.0 + payouts.value.1 == Stake(n.sub.value.state.signed.split.terms)
    ensures NodeOk(WithPayouts(n, payouts)) && Is(WithPayouts(n, payouts), FlagSigned)
  {
  }

  lemma SignedWhere(s: SubPair)
    requires PairOk(s) && Is(s.x, FlagSigned) && Is(s.y, FlagSigned)
    ensures BothSigned(s)
  {
  }

  lemma RearrangedOk(s: SubPair, payout: Option<nat>)
    requires PairOk(s)
    ensures Rearranged(s, payout) == s || (BothSigned(s) && BothSigned(Rearranged(s, payout)))
    ensures PairOk(Rearranged(s, payout))
  {
    var r := Rearranged(s, payout);
    if r != s {
      SignedWhere(s);
      PayoutsOk(s.x, r.x.sub.value.state.signed.payouts);
      PayoutsOk(s.y, r.y.sub.value.state.signed.payouts);
      assert Common(r) && BothSigned(r);
    }
  }

  lemma TurnOk(s: SubPair, t: Turn)
    requires PairOk(s) && (t.Disconnect? ==> NothingLostForGood(s))
    ensures PairOk(Take(s, t))
  {
    match t
    case Left(m) => LeftMoveOk(s, m);
    case Right(m) =>
      SwapKeepsPairOk(s);
      LeftMoveOk(Swap(s), m);
      SwapKeepsPairOk(MoveLeft(Swap(s), m));
    case Disconnect(xRounds, yRounds) => ReconnectConverges(s, xRounds, yRounds);
    case Rearrange(payout) => RearrangedOk(s, payout);
  }

  /** Any number of sub channels can be opened and closed with any number of
      disconnects in between: the two parties stay in step. */
  lemma {:induction false} RunsStayInStep(s: SubPair, turns: seq<Turn>)
    requires Common(s) && Idle(s) && DisconnectsWell(s, turns)
    ensures PairOk(Play(s, turns))
  {
    if turns != [] {
      RunsStayInStep(s, turns[..|turns| - 1]);
      TurnOk(Play(s, turns[..|turns| - 1]), turns[|turns| - 1]);
    }
  }

  /** The split secret that is sent again is the one that the peer is waiting for,
      whether or not a new sub channel has been offered since. */
  lemma ResentSecretIsAwaited(s: SubPair)
    requires Common(s) && CloseFinalizeSent(s)
    ensures var r := Reconnect(s);
            && r.yx != [] && r.yx[0].CloseFinalize?
            && PointOf(r.yx[0].secret) == s.x.sub.value.state.signed.counterPoint
            && r.yx[0].secret.idx == s.x.sub.value.updateIdx
            && Receive(r.x, r.yx[0]).Ok?
  {
    CloseFinalizeRecovered(s);
    CloseFinalizeDelivered(Reconnect(s));
  }

  lemma FirstOffer() returns (start: SubPair, offered: SubPair)
    ensures Common(start) && Idle(start) && start.x.sub.None?
    ensures offered == MoveLeft(start, Local(OfferSub(Terms(2000, 3000, 101))))
    ensures Common(offered) && OfferSent(offered) && offered.x.sub.value.state.terms == Terms(2000, 3000, 101)
  {
    var x := SubNode(Alice, None, Ln(Original, 17000000, 8000000), []);
    var y := SubNode(Bob, None, Ln(Original, 17000000, 9000000), []);
    var terms := Terms(2000, 3000, 101);
    start := SubPair(x, y, [], []);
    offered := MoveLeft(start, Local(OfferSub(terms)));
    assert OfferSubChannel(x, terms).Ok?;
    OfferMade(start, terms);
  }

  lemma CloseOfferedEarly(s: SubPair, acceptBalance: nat)
    requires Common(s) && RevokeSent(s) && Is(s.x, FlagSigned)
             && acceptBalance <= Stake(s.x.sub.value.state.signed.split.terms)
    ensures var r := MoveLeft(s, Local(OfferToClose(acceptBalance))); Common(r) && RevokeSent(r) && RevokeLost(r)
  {
    EarlyCloseOfferMade(s, acceptBalance);
  }

  /** The moment does come up: a first sub channel, closed by the party that offered
      it before its revocation has arrived. */
  lemma RevokeCanBeLost() returns (start: SubPair, offered: SubPair, revoking: SubPair, s: SubPair)
    ensures Common(start) && Idle(start)
    ensures offered == MoveLeft(start, Local(OfferSub(Terms(2000, 3000, 101))))
    ensures revoking ==
            MoveLeft(MoveRight(MoveLeft(MoveRight(MoveRight(offered, Deliver), Local(AcceptSub)), Deliver), Deliver),
                     Deliver)
    ensures s == MoveLeft(revoking, Local(OfferToClose(2500)))
    ensures RevokeLost(s) && Stranded(Reconnect(s))
  {
    start, offered := FirstOffer();
    revoking := RevokeReached(offered);
    CloseOfferedEarly(revoking, 2500);
    s := MoveLeft(revoking, Local(OfferToClose(2500)));
    LostRevokeStrands(s);
  }

  lemma AcceptReached(s: SubPair) returns (r: SubPair)
    requires Common(s) && OfferSent(s)
    ensures r == MoveRight(MoveRight(s, Deliver), Local(AcceptSub)) && Common(r) && AcceptSent(r) && r.x == s.x
  {
    OfferDelivered(s);
    var held := MoveRight(s, Deliver);
    assert held.x == s.x;
    AcceptMade(held);
    r := MoveRight(held, Local(AcceptSub));
  }

  lemma FinalizeReached(s: SubPair) returns (r: SubPair)
    requires Common(s) && AcceptSent(s)
    ensures r == MoveRight(MoveLeft(s, Deliver), Deliver) && Common(r) && FinalizeSent(r)
    ensures r.x.sub.value.state.split.terms == s.x.sub.value.state.terms && r.x.sub.value.fee == s.x.sub.value.fee
  {
    AcceptDelivered(s);
    var confirmed := MoveLeft(s, Deliver);
    assert confirmed.x.sub.value.state.split.terms == s.x.sub.value.state.terms;
    ConfirmDelivered(confirmed);
    r := MoveRight(confirmed, Deliver);
    assert r.x == confirmed.x;
  }

  /** An offer that is accepted leads to the revocation. */
  lemma RevokeReached(s: SubPair) returns (r: SubPair)
    requires Common(s) && OfferSent(s)
    ensures r ==
            MoveLeft(MoveRight(MoveLeft(MoveRight(MoveRight(s, Deliver), Local(AcceptSub)), Deliver), Deliver), Deliver)
    ensures Common(r) && RevokeSent(r) && Is(r.x, FlagSigned)
    ensures r.x.sub.value.state.signed.split.terms == s.x.sub.value.state.terms
            && r.x.sub.value.fee == s.x.sub.value.fee
  {
    var accepted := AcceptReached(s);
    var finalized := FinalizeReached(accepted);
    FinalizeDelivered(finalized);
    r := MoveLeft(finalized, Deliver);
  }

  // ---- Balances ----

  /** What closing brings a party: its share for its collateral, and the odd satoshi of
      the fee when it has changed sides. */
  function Gain(n: SubNode): int {
    if !Is(n, FlagCloseAccepted) && !Is(n, FlagCloseConfirmed) then 0
    else
      var s := n.sub.value;
      (s.state.ownBalance - CollateralOf(s.state.signed.split.terms, s.isOffer)
       + FeeOf(s.fee, Is(n, FlagCloseConfirmed)) - FeeOf(s.fee, s.isOffer)) * 1000
  }

  /** The odd satoshi of a fee goes from the party that offered the sub channel to the
      other one if that one offers the closing. */
  lemma OddFee(n: SubNode)
    requires NodeStateOk(n) && (Is(n, FlagCloseAccepted) || Is(n, FlagCloseConfirmed))
    ensures var s := n.sub.value;
            var shift := if s.fee % 2 == 0 || s.isOffer == Is(n, FlagCloseConfirmed) then 0
                         else if s.isOffer then -1 else 1;
            Gain(n) == (s.state.ownBalance - CollateralOf(TermsOf(n).value, s.isOffer) + shift) * 1000
  {
  }

  /** The Lightning channel that a party is left with if the sub channel is not there:
      the one after closing from when the accepting party has the secret on. */
  function Due(n: SubNode, peer: SubNode): Ln {
    if Is(n, FlagCloseConfirmed) && !Is(peer, FlagCloseAccepted) then n.ln else Base(n)
  }

  /** The turn in which the accepting party takes in the split secret. */
  predicate Completes(s: SubPair, t: Turn) {
    || (t.Left? && Is(s.x, FlagCloseAccepted) && Is(Take(s, t).x, FlagOffChainClosed))
    || (t.Right? && Is(s.y, FlagCloseAccepted) && Is(Take(s, t).y, FlagOffChainClosed))
  }

  /** What all closings of a run have brought the two parties. */
  function Gained(s: SubPair, turns: seq<Turn>): (int, int) {
    if turns == [] then (0, 0)
    else
      var before, last := Play(s, turns[..|turns| - 1]), turns[|turns| - 1];
      var (x, y) := Gained(s, turns[..|turns| - 1]);
      if Completes(before, last) then (x + Gain(before.x), y + Gain(before.y)) else (x, y)
  }

  /** A step of one party keeps what it is left with, unless it is the end of a closing. */
  lemma ChoiceKeepsBase(n: SubNode, c: Choice)
    requires NodeStateOk(n) && StepOf(n, c).Ok?
    ensures var n' := StepOf(n, c).value.0; Base(n') == Base(n) && !Is(n', FlagCloseConfirmed)
    ensures !Is(n, FlagCloseAccepted) && !Is(n, FlagCloseConfirmed)
  {
  }

  predicate KeepsBase(n: SubNode, n': SubNode, m: SubMessage) {
    && Base(n') == (if Is(n, FlagCloseAccepted) || Is(n, FlagCloseConfirmed) then n.ln else Base(n))
    && (Is(n, FlagCloseAccepted) ==> Is(n', FlagOffChainClosed))
    && (Is(n', FlagCloseConfirmed) ==> m.CloseAccept?) && !Is(n', FlagCloseAccepted)
  }

  lemma OpeningKeepsBase(n: SubNode, m: SubMessage)
    requires NodeStateOk(n) && Receive(n, m).Ok?
    requires m.Offer? || m.Accept? || m.Confirm? || m.Finalize? || m.Revoke? || m.RejectOffer?
    ensures KeepsBase(n, Receive(n, m).value.0, m)
  {
  }

  lemma ClosingKeepsBase(n: SubNode, m: SubMessage)
    requires NodeStateOk(n) && Receive(n, m).Ok?
    requires m.CloseOffer? || m.CloseAccept? || m.CloseConfirm? || m.CloseFinalize?
    ensures KeepsBase(n, Receive(n, m).value.0, m)
  {
  }

  lemma MessageKeepsBase(n: SubNode, m: SubMessage)
    requires NodeStateOk(n) && Receive(n, m).Ok?
    ensures KeepsBase(n, Receive(n, m).value.0, m)
  {
    if m.CloseOffer? || m.CloseAccept? || m.CloseConfirm? || m.CloseFinalize? {
      ClosingKeepsBase(n, m);
    } else {
      OpeningKeepsBase(n, m);
    }
  }

  /** Where a party can be that has confirmed a closing. */
  lemma ConfirmedWhere(s: SubPair)
    requires PairOk(s) && Is(s.x, FlagCloseConfirmed)
    ensures CloseConfirmSent(s) || CloseFinalizeSent(s)
  {
  }

  lemma GainSettles(n: SubNode)
    requires NodeStateOk(n) && (Is(n, FlagCloseAccepted) || Is(n, FlagCloseConfirmed)) && FeeKept(n)
    ensures n.ln.own == Base(n).own + Gain(n) && n.ln.value == Base(n).value
  {
  }

  /** At the end of a closing one party gains what the other loses. */
  lemma ClosingSettles(s: SubPair)
    requires Common(s) && CloseConfirmSent(s)
    ensures s.x.ln.own == Base(s.x).own + Gain(s.x) && s.y.ln.own == Base(s.y).own + Gain(s.y)
    ensures Gain(s.x) + Gain(s.y) == 0 && s.x.ln.value == Base(s.x).value && s.y.ln.value == Base(s.y).value
  {
    GainSettles(s.x);
    GainSettles(s.y);
  }

  // ---- The balances over a run ----

  /** What a turn does to what the two parties are left with. */
  predicate Settles(s: SubPair, r: SubPair, completes: bool) {
    var x, y, x', y' := Due(s.x, s.y), Due(s.y, s.x), Due(r.x, r.y), Due(r.y, r.x);
    && x'.value == x.value && y'.value == y.value
    && x'.own == x.own + (if completes then Gain(s.x) else 0)
    && y'.own == y.own + (if completes then Gain(s.y) else 0)
    && (completes ==> Gain(s.x) + Gain(s.y) == 0)
  }

  lemma ChoiceSettles(s: SubPair, c: Choice)
    requires PairOk(s)
    ensures Settles(s, MoveLeft(s, Local(c)), false)
  {
    if Allowed(s, c) && StepOf(s.x, c).Ok? {
      ChoiceKeepsBase(s.x, c);
      if Is(s.y, FlagCloseConfirmed) {
        ConfirmedElsewhere(s);
        ChoiceDoesNotAccept(s.x, c);
      }
    }
  }

  lemma ConfirmedElsewhere(s: SubPair)
    requires PairOk(s) && Is(s.y, FlagCloseConfirmed)
    ensures CloseConfirmSent(Swap(s)) || CloseFinalizeSent(Swap(s))
  {
    SwapKeepsPairOk(s);
    ConfirmedWhere(Swap(s));
  }

  lemma ChoiceDoesNotAccept(n: SubNode, c: Choice)
    requires !Is(n, FlagCloseOffered) && StepOf(n, c).Ok?
    ensures !Is(StepOf(n, c).value.0, FlagCloseAccepted)
  {
  }

  lemma ConfirmSettles(s: SubPair)
    requires Common(s) && CloseConfirmSent(Swap(s))
    ensures Completes(s, Left(Deliver)) && Settles(s, MoveLeft(s, Deliver), true)
  {
    ClosingSettles(Swap(s));
    CloseConfirmDelivered(Swap(s));
    var r := MoveLeft(s, Deliver);
    assert r == Swap(MoveRight(Swap(s), Deliver)) && Is(r.x, FlagOffChainClosed);
    MessageKeepsBase(s.x, s.yx[0]);
  }

  lemma FinalizeSettles(s: SubPair)
    requires Common(s) && CloseFinalizeSent(s)
    ensures Settles(s, MoveLeft(s, Deliver), false)
  {
    CloseFinalizeDelivered(s);
    MessageKeepsBase(s.x, s.yx[0]);
  }

  lemma AcceptanceFrom(s: SubPair)
    requires PairOk(s) && s.yx != [] && s.yx[0].CloseAccept?
    ensures Is(s.y, FlagCloseAccepted)
  {
  }

  lemma OtherDeliverySettles(s: SubPair)
    requires PairOk(s) && !Is(s.x, FlagCloseConfirmed) && !Is(s.x, FlagCloseAccepted) && !Is(s.y, FlagCloseConfirmed)
    requires s.yx != [] && Receive(s.x, s.yx[0]).Ok?
    ensures Settles(s, MoveLeft(s, Deliver), false)
  {
    var x' := Receive(s.x, s.yx[0]).value.0;
    assert Base(x') == Base(s.x) && (Is(x', FlagCloseConfirmed) ==> s.yx[0].CloseAccept?) by {
      MessageKeepsBase(s.x, s.yx[0]);
    }
    if s.yx[0].CloseAccept? {
      AcceptanceFrom(s);
    }
  }

  /** A party that has accepted a closing gets nothing but its confirmation. */
  lemma AcceptedWhere(s: SubPair)
    requires PairOk(s) && Is(s.x, FlagCloseAccepted) && s.yx != []
    ensures CloseConfirmSent(Swap(s))
  {
  }

  lemma DeliverySettles(s: SubPair)
    requires PairOk(s)
    ensures Settles(s, MoveLeft(s, Deliver), Completes(s, Left(Deliver)))
  {
    if s.yx != [] && Receive(s.x, s.yx[0]).Ok? {
      if Is(s.x, FlagCloseAccepted) {
        AcceptedWhere(s);
        ConfirmSettles(s);
      } else if Is(s.x, FlagCloseConfirmed) {
        ConfirmedWhere(s);
        FinalizeSettles(s);
      } else {
        if Is(s.y, FlagCloseConfirmed) {
          ConfirmedElsewhere(s);
          assert false;
        }
        OtherDeliverySettles(s);
      }
    }
  }

  lemma DisconnectSettles(s: SubPair)
    requires PairOk(s) && NothingLostForGood(s)
    ensures Settles(s, Reconnect(s), false)
  {
    ReconnectAtOnce(s);
    if Is(s.x, FlagCloseConfirmed) {
      ConfirmedWhere(s);
      ConfirmedReconnects(s);
    } else if Is(s.y, FlagCloseConfirmed) {
      ConfirmedElsewhere(s);
      assert Reconnect(Swap(s)) == Swap(Reconnect(s));
      ConfirmedReconnects(Swap(s));
    } else {
      NotConfirmedResumes(s.x, ReestablishFlag(s.y));
      NotConfirmedResumes(s.y, ReestablishFlag(s.x));
    }
  }

  lemma ConfirmedReconnects(s: SubPair)
    requires Common(s) && (CloseConfirmSent(s) || CloseFinalizeSent(s))
    ensures Settles(s, Reconnect(s), false)
  {
    if CloseConfirmSent(s) {
      CloseConfirmRecovered(s);
    } else {
      CloseFinalizeRecovered(s);
    }
  }

  /** Reconnecting never gets a party to confirm a closing. */
  lemma NotConfirmedResumes(n: SubNode, peer: Option<Flag>)
    requires NodeOk(n) && !Is(n, FlagCloseConfirmed)
    ensures !Is(Resumed(n, peer).0, FlagCloseConfirmed)
  {
    if OffersSub(n) {
      ResumeOffering(n, peer);
    } else if Is(n, FlagAccepted) {
      ResumeAccepted(n, peer);
    } else if Is(n, FlagConfirmed) {
      ResumeConfirmed(n, peer);
    } else if Is(n, FlagFinalized) {
      if peer.Some? {
        ResumeFinalized(n, peer);
      }
    } else if Is(n, FlagSigned) || Is(n, FlagCloseOffered) {
      ResumeClosing(n, peer);
    } else if Is(n, FlagCloseAccepted) {
      ResumeCloseAccepted(n, peer);
    } else if !Is(n, FlagOffered) {
      ResumeClosed(n, peer);
    }
  }

  lemma TurnSettles(s: SubPair, t: Turn)
    requires PairOk(s) && (t.Disconnect? ==> NothingLostForGood(s))
    ensures Settles(s, Take(s, t), Completes(s, t))
  {
    match t
    case Left(m) => LeftSettles(s, m);
    case Right(m) => RightSettles(s, m);
    case Disconnect(xRounds, yRounds) =>
      WaitingReconnects(s, xRounds, yRounds);
      DisconnectSettles(s);
    case Rearrange(payout) => RearrangedSettles(s, payout);
  }

  lemma RearrangedSettles(s: SubPair, payout: Option<nat>)
    ensures Settles(s, Rearranged(s, payout), false)
  {
  }

  lemma RightSettles(s: SubPair, m: Move)
    requires PairOk(s)
    ensures Settles(s, MoveRight(s, m), Completes(s, Right(m)))
  {
    SwapKeepsPairOk(s);
    LeftSettles(Swap(s), m);
    assert Completes(Swap(s), Left(m)) == Completes(s, Right(m));
    SettlesSwapped(Swap(s), MoveLeft(Swap(s), m), Completes(s, Right(m)));
  }

  lemma SettlesSwapped(s: SubPair, r: SubPair, completes: bool)
    requires Settles(s, r, completes)
    ensures Settles(Swap(s), Swap(r), completes)
  {
  }

  lemma LeftSettles(s: SubPair, m: Move)
    requires PairOk(s)
    ensures Settles(s, MoveLeft(s, m), Completes(s, Left(m)))
  {
    match m
    case Local(c) =>
      ChoiceSettles(s, c);
      if Is(s.x, FlagCloseAccepted) && Allowed(s, c) && StepOf(s.x, c).Ok? {
        ChoiceKeepsBase(s.x, c);
      }
    case Deliver => DeliverySettles(s);
  }

  /** From two parties without a sub channel, through any run: together they are always
      left with what there was, and each with what it had and what the closings so far
      have brought it, one the opposite of the other. */
  lemma {:induction false} BalancesSettle(s: SubPair, turns: seq<Turn>)
    requires Common(s) && Idle(s) && DisconnectsWell(s, turns)
    ensures var r, gained := Play(s, turns), Gained(s, turns);
            && gained.0 + gained.1 == 0
            && Due(r.x, r.y).own == s.x.ln.own + gained.0 && Due(r.x, r.y).value == s.x.ln.value
            && Due(r.y, r.x).own == s.y.ln.own + gained.1 && Due(r.y, r.x).value == s.x.ln.value
  {
    if turns != [] {
      var before, t := turns[..|turns| - 1], turns[|turns| - 1];
      BalancesSettle(s, before);
      RunsStayInStep(s, before);
      TurnSettles(Play(s, before), t);
    }
  }

  /** In particular at the end of a run, when no sub channel is left. */
  lemma BalancesAtRest(s: SubPair, turns: seq<Turn>)
    requires Common(s) && Idle(s) && DisconnectsWell(s, turns) && Idle(Play(s, turns))
    ensures var r, gained := Play(s, turns), Gained(s, turns);
            && r.x.ln.funding == Original && r.x.ln.value == s.x.ln.value && r.x.ln.own == s.x.ln.own + gained.0
            && r.y.ln.funding == Original && r.y.ln.value == s.x.ln.value && r.y.ln.own == s.y.ln.own + gained.1
            && r.x.ln.own + r.y.ln.own == s.x.ln.own + s.y.ln.own
  {
    BalancesSettle(s, turns);
    RunsStayInStep(s, turns);
  }

  // ---- Another fee ----

  predicate OpenNode(n: SubNode) {
    (Is(n, FlagSigned) || Is(n, FlagCloseOffered) || Is(n, FlagCloseAccepted)) && !FeeKept(n)
  }

  /** An established sub channel that was opened at another fee than its first. */
  predicate OpenAtOtherFee(s: SubPair) {
    OpenNode(s.x) && OpenNode(s.y)
  }

  lemma ChoiceStaysOpen(n: SubNode, c: Choice)
    requires OpenNode(n) && StepOf(n, c).Ok?
    ensures OpenNode(StepOf(n, c).value.0)
  {
  }

  lemma MessageStaysOpen(n: SubNode, m: SubMessage)
    requires OpenNode(n) && !m.CloseConfirm? && Receive(n, m).Ok? && NodeStateOk(Receive(n, m).value.0)
    ensures OpenNode(Receive(n, m).value.0)
  {
  }

  lemma MoveStaysOpen(s: SubPair, m: Move)
    requires PairOk(s) && OpenAtOtherFee(s)
    ensures PairOk(MoveLeft(s, m)) && OpenAtOtherFee(MoveLeft(s, m))
  {
    LeftMoveOk(s, m);
    match m
    case Local(c) =>
      if Allowed(s, c) && StepOf(s.x, c).Ok? {
        ChoiceStaysOpen(s.x, c);
      }
    case Deliver =>
      if s.yx != [] && Receive(s.x, s.yx[0]).Ok? {
        NotConfirming(s);
        MessageStaysOpen(s.x, s.yx[0]);
      }
  }

  lemma NotConfirming(s: SubPair)
    requires PairOk(s) && OpenNode(s.y) && s.yx != [] && Receive(s.x, s.yx[0]).Ok?
    ensures !s.yx[0].CloseConfirm?
  {
    if Is(s.x, FlagCloseAccepted) {
      AcceptedWhere(s);
    }
  }

  lemma OpenWhere(s: SubPair)
    requires PairOk(s) && OpenAtOtherFee(s)
    ensures BothSigned(s) || CloseOfferSent(s) || CloseOfferHeld(s) || CloseRejectSent(s) || CloseAcceptSent(s)
            || CloseOfferSent(Swap(s)) || CloseOfferHeld(Swap(s)) || CloseRejectSent(Swap(s))
            || CloseAcceptSent(Swap(s))
  {
  }

  lemma OpenReconnects(s: SubPair)
    requires Common(s) && OpenAtOtherFee(s)
    requires BothSigned(s) || CloseOfferSent(s) || CloseOfferHeld(s) || CloseRejectSent(s) || CloseAcceptSent(s)
    ensures PairOk(Reconnect(s)) && OpenAtOtherFee(Reconnect(s))
  {
    if CloseRejectSent(s) {
      CloseRejectRecovered(s);
    } else if CloseAcceptSent(s) {
      CloseAcceptRecovered(s);
    } else {
      SignedRecovered(s);
    }
  }

  lemma DisconnectStaysOpen(s: SubPair)
    requires PairOk(s) && OpenAtOtherFee(s)
    ensures PairOk(Reconnect(s)) && OpenAtOtherFee(Reconnect(s))
  {
    OpenWhere(s);
    if BothSigned(s) || CloseOfferSent(s) || CloseOfferHeld(s) || CloseRejectSent(s) || CloseAcceptSent(s) {
      OpenReconnects(s);
    } else {
      OpenReconnects(Swap(s));
      assert Reconnect(Swap(s)) == Swap(Reconnect(s));
      SwapPairOk(Reconnect(s));
    }
  }

  lemma RearrangedStaysOpen(s: SubPair, payout: Option<nat>)
    requires PairOk(s) && OpenAtOtherFee(s)
    ensures PairOk(Rearranged(s, payout)) && OpenAtOtherFee(Rearranged(s, payout))
  {
    RearrangedOk(s, payout);
  }

  lemma TurnStaysOpen(s: SubPair, t: Turn)
    requires PairOk(s) && OpenAtOtherFee(s)
    ensures PairOk(Take(s, t)) && OpenAtOtherFee(Take(s, t))
  {
    match t
    case Left(m) => MoveStaysOpen(s, m);
    case Right(m) =>
      SwapKeepsPairOk(s);
      MoveStaysOpen(Swap(s), m);
      SwapKeepsPairOk(MoveLeft(Swap(s), m));
    case Disconnect(xRounds, yRounds) =>
      WaitingReconnects(s, xRounds, yRounds);
      DisconnectStaysOpen(s);
    case Rearrange(payout) => RearrangedStaysOpen(s, payout);
  }

  /** A sub channel opened at another fee is never closed off chain again, whatever the
      parties do and however often they reconnect. */
  lemma {:induction false} OtherFeeNeverCloses(s: SubPair, turns: seq<Turn>)
    requires PairOk(s) && OpenAtOtherFee(s)
    ensures PairOk(Play(s, turns)) && OpenAtOtherFee(Play(s, turns))
  {
    if turns != [] {
      OtherFeeNeverCloses(s, turns[..|turns| - 1]);
      TurnStaysOpen(Play(s, turns[..|turns| - 1]), turns[|turns| - 1]);
    }
  }

  /** A sub channel keeps the fee of its first offer. */
  lemma FeeIsThatOfFirstOffer(n: SubNode, terms: Terms)
    requires OfferSubChannel(n, terms).Ok?
    ensures var n' := OfferSubChannel(n, terms).value.0;
            && n'.sub.Some? && n'.sub.value.state == Offered(Point(n.party, n'.sub.value.updateIdx), terms)
            && (n'.sub.value.fee == terms.fee <==> n.sub.None? || n.sub.value.fee == terms.fee)
  {
  }

  /** Offering a sub channel again at another fee and accepting that is all it takes. */
  lemma ReofferedAtOtherFee(s: SubPair, terms: Terms) returns (offered: SubPair, revoking: SubPair, r: SubPair)
    requires Common(s) && Idle(s) && s.x.sub.Some? && OfferSubChannel(s.x, terms).Ok?
    requires terms.fee != s.x.sub.value.fee
    ensures offered == MoveLeft(s, Local(OfferSub(terms)))
    ensures revoking ==
            MoveLeft(MoveRight(MoveLeft(MoveRight(MoveRight(offered, Deliver), Local(AcceptSub)), Deliver), Deliver),
                     Deliver)
    ensures r == MoveRight(revoking, Deliver)
    ensures PairOk(r) && OpenAtOtherFee(r)
  {
    offered := OfferedAgain(s, terms);
    revoking := RevokeReached(offered);
    r := MoveRight(revoking, Deliver);
    RevokeDelivered(revoking);
    assert r.x == revoking.x;
  }

  lemma OfferedAgain(s: SubPair, terms: Terms) returns (offered: SubPair)
    requires Common(s) && Idle(s) && s.x.sub.Some? && OfferSubChannel(s.x, terms).Ok?
    ensures offered == MoveLeft(s, Local(OfferSub(terms))) && Common(offered) && OfferSent(offered)
    ensures offered.x.sub.value.state.terms == terms && offered.x.sub.value.fee == s.x.sub.value.fee
  {
    OfferMade(s, terms);
    offered := MoveLeft(s, Local(OfferSub(terms)));
    assert offered.x.sub.value.updateIdx + 1 == s.x.sub.value.updateIdx;
  }

  /** Whether a party that has rejected an offer can make one itself. If it has never
      offered or accepted one it panics for want of a split seed. */
  lemma OfferAfterRejecting(s: SubPair, terms: Terms)
    requires Common(s) && OfferHeld(s) && s.y.sub.value.updateIdx > 0
    ensures var r := MoveLeft(MoveRight(s, Local(RejectSub)), Deliver);
            && Idle(r) && HasRejected(r.y) && r.y.sub.value.hasSeed == s.y.sub.value.hasSeed
            && (ValidateLnValues(r.y.ln, terms, true).Ok? ==>
                (OfferSubChannel(r.y, terms) == Err(Fault) <==> !s.y.sub.value.hasSeed))
  {
    RejectMade(s);
    var rejected := MoveRight(s, Local(RejectSub));
    assert rejected.y == InState(s.y, Rejected);
    RejectDelivered(rejected);
    assert MoveLeft(rejected, Deliver).y == rejected.y;
  }

  /** A first offer is held without a seed. */
  lemma FirstOfferHasNoSeed(s: SubPair)
    requires Common(s) && OfferSent(s) && s.y.sub.None?
    ensures OfferHeld(MoveRight(s, Deliver)) && !MoveRight(s, Deliver).y.sub.value.hasSeed
  {
    OfferDelivered(s);
  }

  /** A party without a sub channel, or with one that has been closed, can offer one that
      both can afford, at the next index; so can one that has rejected or been rejected, if
      it has a split seed. */
  lemma CanOffer(s: SubPair, terms: Terms)
    requires Common(s) && Idle(s) && ValidateLnValues(s.x.ln, terms, true).Ok?
    requires s.x.sub.Some? ==> s.x.sub.value.updateIdx > 0 && (HasRejected(s.x) ==> s.x.sub.value.hasSeed)
    ensures var r := MoveLeft(s, Local(OfferSub(terms)));
            && Common(r) && OfferSent(r) && TermsOf(r.x) == Some(terms)
            && r.x.sub.value.updateIdx == (if s.x.sub.None? then INITIAL_UPDATE_NUMBER else s.x.sub.value.updateIdx - 1)
  {
    OfferMade(s, terms);
    assert OfferSubChannel(s.x, terms).Ok?;
  }

  // ---- What an opening takes ----

  /** Both parties can put in their collateral and their half of the fee, and keep enough. */
  predicate Affordable(terms: Terms, offererOwn: int, accepterOwn: int) {
    && offererOwn >= (terms.offerCollateral + (terms.fee + 1) / 2 + DUST_LIMIT) * 1000
    && accepterOwn >= (terms.acceptCollateral + terms.fee / 2 + DUST_LIMIT) * 1000
  }

  predicate CanAfford(s: SubPair, terms: Terms) {
    Affordable(terms, s.x.ln.own, s.y.ln.own)
  }

  lemma AffordedIff(s: SubPair, terms: Terms)
    requires SameLn(s.x.ln, s.y.ln)
    ensures ValidateLnValues(s.x.ln, terms, true).Ok? <==> CanAfford(s, terms)
  {
  }

  /** An offer of any peer is taken in exactly by a party that has no sub channel, or one
      that is closed or rejected, if both parties can afford it. */
  lemma OfferTakenIff(n: SubNode, m: SubMessage)
    requires m.Offer?
    ensures OnOffer(n, m).Ok? <==>
            && (n.sub.Some? ==> n.sub.value.updateIdx > 0 && (Is(n, FlagOffChainClosed) || HasRejected(n)))
            && Affordable(m.terms, n.ln.value - n.ln.own, n.ln.own)
  {
  }

  /** What a peer has shown by a message that is taken in: a commitment signature that fits
      the Lightning channel a party then has; to close, the secret of the point it gave,
      and with it the commitment secret, unless the two have reconnected in between. */
  predicate Proves(n: SubNode, m: SubMessage, after: SubNode) {
    match m
    case Accept(_, commitment) => SameLn(after.ln, commitment)
    case Confirm(commitment) => SameLn(after.ln, commitment)
    case CloseAccept(commitment) =>
      SameLn(after.ln, commitment) && Is(after, FlagCloseConfirmed) && after.sub.value.state.checkLnSecret
    case CloseConfirm(secret, commitment) =>
      SameLn(after.ln, commitment) && Is(n, FlagCloseAccepted) && ClosesWith(n.sub.value, after, secret)
    case CloseFinalize(secret, withCommitmentSecret) =>
      && Is(n, FlagCloseConfirmed) && ClosesWith(n.sub.value, after, secret)
      && (n.sub.value.state.checkLnSecret ==> withCommitmentSecret)
    case _ => true
  }

  /** The sub channel is closed and the secret is in the store, at its index. */
  predicate ClosesWith(s: SubChannel, after: SubNode, secret: Secret)
    requires s.state.CloseAccepted? || s.state.CloseConfirmed?
  {
    && PointOf(secret) == s.state.signed.counterPoint
    && Is(after, FlagOffChainClosed) && after.sub.value.secrets == s.secrets[s.updateIdx := secret]
  }

  /** No message of any peer is taken in on its word. */
  lemma NothingUnchecked(n: SubNode, m: SubMessage)
    ensures Receive(n, m).Ok? ==> Proves(n, m, Receive(n, m).value.0)
  {
  }

  /** The party can make an offer at all. */
  predicate MayOffer(n: SubNode) {
    n.sub.Some? ==>
      n.sub.value.updateIdx > 0 && (Is(n, FlagOffChainClosed) || (HasRejected(n) && n.sub.value.hasSeed))
  }

  /** `x` opens a sub channel on these terms over the Lightning channel as it was in `s`. */
  predicate Opens(s: SubPair, r: SubPair, terms: Terms) {
    && TermsOf(r.x) == Some(terms) && r.x.sub.value.isOffer
    && Base(r.x).own == s.x.ln.own && Base(r.y).own == s.y.ln.own
  }

  lemma OpeningOffered(s: SubPair, terms: Terms) returns (offered: SubPair)
    requires Common(s) && Idle(s) && CanAfford(s, terms) && MayOffer(s.x)
    ensures offered == MoveLeft(s, Local(OfferSub(terms)))
    ensures Common(offered) && OfferSent(offered) && Opens(s, offered, terms)
  {
    AffordedIff(s, terms);
    CanOffer(s, terms);
    offered := MoveLeft(s, Local(OfferSub(terms)));
  }

  lemma OpeningHeld(s: SubPair, r: SubPair, terms: Terms) returns (held: SubPair)
    requires Common(r) && OfferSent(r) && Opens(s, r, terms)
    ensures held == MoveRight(r, Deliver) && Common(held) && OfferHeld(held) && Opens(s, held, terms)
  {
    OfferDelivered(r);
    held := MoveRight(r, Deliver);
  }

  lemma OpeningAccepted(s: SubPair, r: SubPair, terms: Terms) returns (accepted: SubPair)
    requires Common(r) && OfferHeld(r) && Opens(s, r, terms)
    ensures accepted == MoveRight(r, Local(AcceptSub))
    ensures Common(accepted) && AcceptSent(accepted) && Opens(s, accepted, terms)
  {
    AcceptMade(r);
    accepted := MoveRight(r, Local(AcceptSub));
  }

  lemma OpeningConfirmed(s: SubPair, r: SubPair, terms: Terms) returns (confirmed: SubPair)
    requires Common(r) && AcceptSent(r) && Opens(s, r, terms)
    ensures confirmed == MoveLeft(r, Deliver)
    ensures Common(confirmed) && ConfirmSent(confirmed) && Opens(s, confirmed, terms)
  {
    AcceptDelivered(r);
    confirmed := MoveLeft(r, Deliver);
  }

  lemma OpeningFinalized(s: SubPair, r: SubPair, terms: Terms) returns (finalized: SubPair)
    requires Common(r) && ConfirmSent(r) && Opens(s, r, terms)
    ensures finalized == MoveRight(r, Deliver)
    ensures Common(finalized) && FinalizeSent(finalized) && Opens(s, finalized, terms)
  {
    ConfirmDelivered(r);
    finalized := MoveRight(r, Deliver);
  }

  lemma OpeningRevoked(s: SubPair, r: SubPair, terms: Terms) returns (revoked: SubPair)
    requires Common(r) && FinalizeSent(r) && Opens(s, r, terms)
    ensures revoked == MoveLeft(r, Deliver) && Common(revoked) && RevokeSent(revoked) && Opens(s, revoked, terms)
    ensures Is(revoked.x, FlagSigned)
  {
    FinalizeDelivered(r);
    revoked := MoveLeft(r, Deliver);
  }

  lemma OpeningSigned(s: SubPair, r: SubPair, terms: Terms) returns (signed: SubPair)
    requires Common(r) && RevokeSent(r) && Opens(s, r, terms) && Is(r.x, FlagSigned)
    ensures signed == MoveRight(r, Deliver) && Common(signed) && BothSigned(signed) && Opens(s, signed, terms)
  {
    RevokeDelivered(r);
    signed := MoveRight(r, Deliver);
  }

  /** What an open sub channel has taken from the Lightning channel of each party. */
  predicate Takes(s: SubPair, signed: SubPair, terms: Terms) {
    && signed.x.ln.own == s.x.ln.own - (terms.offerCollateral + (terms.fee + 1) / 2) * 1000
    && signed.y.ln.own == s.y.ln.own - (terms.acceptCollateral + terms.fee / 2) * 1000
  }

  lemma OpenTakes(s: SubPair, signed: SubPair, terms: Terms)
    requires Common(signed) && BothSigned(signed) && Opens(s, signed, terms)
    ensures Takes(s, signed, terms)
  {
  }

  lemma OpeningRun(s: SubPair, terms: Terms)
    returns (offered: SubPair, held: SubPair, accepted: SubPair, confirmed: SubPair, finalized: SubPair,
             revoked: SubPair, signed: SubPair)
    requires Common(s) && Idle(s) && CanAfford(s, terms) && MayOffer(s.x)
    ensures offered == MoveLeft(s, Local(OfferSub(terms))) && held == MoveRight(offered, Deliver)
    ensures accepted == MoveRight(held, Local(AcceptSub)) && confirmed == MoveLeft(accepted, Deliver)
    ensures finalized == MoveRight(confirmed, Deliver) && revoked == MoveLeft(finalized, Deliver)
    ensures signed == MoveRight(revoked, Deliver) && Common(signed) && BothSigned(signed) && Opens(s, signed, terms)
  {
    offered := OpeningOffered(s, terms);
    held := OpeningHeld(s, offered, terms);
    accepted := OpeningAccepted(s, held, terms);
    confirmed := OpeningConfirmed(s, accepted, terms);
    finalized := OpeningFinalized(s, confirmed, terms);
    revoked := OpeningRevoked(s, finalized, terms);
    signed := OpeningSigned(s, revoked, terms);
  }

  /** The turns of an opening that the first party offers and the other accepts. */
  function OpeningTurns(terms: Terms): seq<Turn> {
    [Left(Local(OfferSub(terms))), Right(Deliver), Right(Local(AcceptSub)), Left(Deliver), Right(Deliver),
     Left(Deliver)] + [Right(Deliver)]
  }

  lemma PlayOpening(s: SubPair, terms: Terms, r1: SubPair, r2: SubPair, r3: SubPair, r4: SubPair, r5: SubPair,
                    r6: SubPair)
    requires r1 == MoveLeft(s, Local(OfferSub(terms))) && r2 == MoveRight(r1, Deliver)
    requires r3 == MoveRight(r2, Local(AcceptSub)) && r4 == MoveLeft(r3, Deliver)
    requires r5 == MoveRight(r4, Deliver) && r6 == MoveLeft(r5, Deliver)
    ensures Play(s, OpeningTurns(terms)) == MoveRight(r6, Deliver)
  {
    var first := OpeningTurns(terms)[..6];
    PlaySix(s, first, r1, r2, r3, r4, r5);
    PlaysOn(s, first, Right(Deliver));
    assert OpeningTurns(terms) == first + [Right(Deliver)];
  }

  /** A sub channel that both can afford and that is offered and accepted is opened on those
      terms. It takes from each party its collateral and its half of the fee. */
  lemma OpeningTakes(s: SubPair, terms: Terms)
    requires Common(s) && Idle(s) && CanAfford(s, terms) && MayOffer(s.x)
    ensures var signed := Play(s, OpeningTurns(terms));
            && Common(signed) && BothSigned(signed) && signed.x.sub.value.isOffer
            && TermsOf(signed.x) == Some(terms) && Takes(s, signed, terms)
  {
    var offered, held, accepted, confirmed, finalized, revoked, signed := OpeningRun(s, terms);
    OpenTakes(s, signed, terms);
    PlayOpening(s, terms, offered, held, accepted, confirmed, finalized, revoked);
  }

  // ---- What a closing pays out ----

  /** The close offers that are possible: any up to the stake, or after a settlement the
      one that gives the counter party what it settled for. */
  lemma ClosesFor(s: SubPair, acceptBalance: nat)
    requires Common(s) && BothSigned(s)
    ensures var signed := s.x.sub.value.state.signed;
            OfferClose(s.x, acceptBalance).Ok? <==>
            if signed.payouts.None? then acceptBalance <= Stake(signed.split.terms)
            else acceptBalance == signed.payouts.value.1
  {
  }

  predicate Shares(n: SubNode, own: int, counter: int) {
    BalancesOf(n).Some? && BalancesOf(n).value.0 == own && BalancesOf(n).value.1 == counter
  }

  lemma CloseOffered(s: SubPair, acceptBalance: nat) returns (offered: SubPair)
    requires Common(s) && BothSigned(s) && OfferClose(s.x, acceptBalance).Ok?
    ensures offered == MoveLeft(s, Local(OfferToClose(acceptBalance)))
    ensures Common(offered) && CloseOfferSent(offered) && Unmoved(s, offered)
    ensures Shares(offered.x, Stake(TermsOf(s.x).value) - acceptBalance, acceptBalance)
  {
    CloseOfferMade(s, acceptBalance);
    offered := MoveLeft(s, Local(OfferToClose(acceptBalance)));
  }

  lemma CloseHeld(s: SubPair) returns (held: SubPair)
    requires Common(s) && CloseOfferSent(s)
    ensures held == MoveRight(s, Deliver) && Common(held) && CloseOfferHeld(held) && held.x == s.x && Unmoved(s, held)
    ensures Shares(held.y, BalancesOf(s.x).value.1, BalancesOf(s.x).value.0)
  {
    CloseOfferDelivered(s);
    held := MoveRight(s, Deliver);
  }

  /** Terms, roles, fees and what closing settles against are the same. */
  predicate Unmoved(s: SubPair, r: SubPair) {
    && s.x.sub.Some? && s.y.sub.Some? && r.x.sub.Some? && r.y.sub.Some?
    && TermsOf(r.x) == TermsOf(s.x) && Base(r.x) == Base(s.x) && Base(r.y) == Base(s.y)
    && r.x.sub.value.isOffer == s.x.sub.value.isOffer && r.x.sub.value.fee == s.x.sub.value.fee
    && r.y.sub.value.isOffer == s.y.sub.value.isOffer && r.y.sub.value.fee == s.y.sub.value.fee
  }

  predicate SameBalances(s: SubPair, r: SubPair) {
    BalancesOf(r.x) == BalancesOf(s.x) && BalancesOf(r.y) == BalancesOf(s.y)
  }

  lemma CloseAcceptedAt(s: SubPair) returns (accepted: SubPair)
    requires Common(s) && CloseOfferHeld(s)
    ensures accepted == MoveRight(s, Local(AcceptToClose)) && Common(accepted) && CloseAcceptSent(accepted)
    ensures accepted.x == s.x && accepted.yx != [] && Unmoved(s, accepted) && SameBalances(s, accepted)
  {
    CloseAcceptMade(s);
    accepted := MoveRight(s, Local(AcceptToClose));
  }

  lemma CloseConfirmedAt(s: SubPair) returns (confirmed: SubPair)
    requires Common(s) && CloseAcceptSent(s) && FeeKept(s.x) && s.yx != []
    ensures confirmed == MoveLeft(s, Deliver)
    ensures Common(confirmed) && CloseConfirmSent(confirmed) && Unmoved(s, confirmed) && SameBalances(s, confirmed)
  {
    CloseAcceptDelivered(s);
    confirmed := MoveLeft(s, Deliver);
    assert confirmed.y == s.y;
  }

  lemma ConfirmMove(s: SubPair)
    requires s.xy != [] && s.xy[0].CloseConfirm? && Is(s.y, FlagCloseAccepted)
    ensures var r := MoveRight(s, Deliver);
            r.x == s.x && (Is(r.y, FlagCloseAccepted) || Is(r.y, FlagOffChainClosed)) && r.y.ln == s.y.ln
  {
  }

  lemma SecretTaken(s: SubPair) returns (secret: SubPair)
    requires Common(s) && CloseConfirmSent(s)
    ensures secret == MoveRight(s, Deliver) && Common(secret) && CloseFinalizeSent(secret)
    ensures secret.x == s.x && Is(secret.y, FlagOffChainClosed) && secret.y.ln == s.y.ln
  {
    secret := MoveRight(s, Deliver);
    ConfirmMove(s);
    CloseConfirmDelivered(s);
  }

  lemma CloseEnds(s: SubPair) returns (closed: SubPair)
    requires Common(s) && CloseFinalizeSent(s) && Is(s.y, FlagOffChainClosed)
    ensures closed == MoveLeft(s, Deliver) && Common(closed) && Idle(closed)
    ensures closed.x.ln == s.x.ln && closed.y == s.y
  {
    CloseFinalizeDelivered(s);
    closed := MoveLeft(s, Deliver);
    SecretStored(s.x, s.yx[0].secret);
  }

  /** The satoshi that the party which offers the closing gets of an odd fee. */
  function OddSatoshi(s: SubChannel): nat {
    if s.fee % 2 == 1 && !s.isOffer then 1 else 0
  }

  /** What each party ends up with that had so much, when the one that offers the closing
      leaves the other so much of the stake. */
  predicate Pays(s: SubPair, closed: SubPair, acceptBalance: nat)
    requires s.x.sub.Some? && TermsOf(s.x).Some?
  {
    var terms, x := TermsOf(s.x).value, s.x.sub.value;
    && closed.x.ln.own ==
       Base(s.x).own + (Stake(terms) - acceptBalance - CollateralOf(terms, x.isOffer) + OddSatoshi(x)) * 1000
    && closed.y.ln.own == Base(s.y).own + (acceptBalance - CollateralOf(terms, !x.isOffer) - OddSatoshi(x)) * 1000
  }

  lemma OwnAmount(n: SubNode)
    requires NodeStateOk(n) && (Is(n, FlagCloseAccepted) || Is(n, FlagCloseConfirmed)) && FeeKept(n)
    ensures var s := n.sub.value;
            var odd := if s.fee % 2 == 0 || s.isOffer == Is(n, FlagCloseConfirmed) then 0
                       else if s.isOffer then -1 else 1;
            n.ln.own == Base(n).own + (BalancesOf(n).value.0 - CollateralOf(TermsOf(n).value, s.isOffer) + odd) * 1000
  {
    GainSettles(n);
    OddFee(n);
  }

  lemma ClosingAmounts(s: SubPair, confirmed: SubPair, acceptBalance: nat)
    requires NodeStateOk(confirmed.x) && NodeStateOk(confirmed.y) && CloseConfirmSent(confirmed)
    requires confirmed.x.sub.value.fee == confirmed.y.sub.value.fee && FeeKept(confirmed.x)
    requires Unmoved(s, confirmed) && TermsOf(s.x).Some?
    requires Shares(confirmed.x, Stake(TermsOf(s.x).value) - acceptBalance, acceptBalance)
    requires Shares(confirmed.y, acceptBalance, Stake(TermsOf(s.x).value) - acceptBalance)
    ensures Pays(s, confirmed, acceptBalance)
  {
    OwnAmount(confirmed.x);
    OwnAmount(confirmed.y);
  }

  /** The turns of a closing that the first party offers and the other accepts. */
  function ClosingTurns(acceptBalance: nat): seq<Turn> {
    [Left(Local(OfferToClose(acceptBalance))), Right(Deliver), Right(Local(AcceptToClose)), Left(Deliver),
     Right(Deliver), Left(Deliver)]
  }

  lemma PlaysOn(s: SubPair, turns: seq<Turn>, t: Turn)
    ensures Play(s, turns + [t]) == Take(Play(s, turns), t)
  {
    assert (turns + [t])[..|turns|] == turns;
  }

  lemma PlaySix(s: SubPair, t: seq<Turn>, r1: SubPair, r2: SubPair, r3: SubPair, r4: SubPair, r5: SubPair)
    requires |t| == 6
    requires r1 == Take(s, t[0]) && r2 == Take(r1, t[1]) && r3 == Take(r2, t[2]) && r4 == Take(r3, t[3])
    requires r5 == Take(r4, t[4])
    ensures Play(s, t) == Take(r5, t[5])
  {
    var p1, p2, p3 := [] + [t[0]], [] + [t[0]] + [t[1]], [] + [t[0]] + [t[1]] + [t[2]];
    PlaysOn(s, [], t[0]);
    PlaysOn(s, p1, t[1]);
    PlaysOn(s, p2, t[2]);
    PlaysOn(s, p3, t[3]);
    PlaysOn(s, p3 + [t[3]], t[4]);
    PlaysOn(s, p3 + [t[3]] + [t[4]], t[5]);
    assert t == p3 + [t[3]] + [t[4]] + [t[5]];
  }

  lemma ClosingRun(s: SubPair, acceptBalance: nat)
    returns (offered: SubPair, held: SubPair, accepted: SubPair, confirmed: SubPair, secret: SubPair, closed: SubPair)
    requires Common(s) && BothSigned(s) && OfferClose(s.x, acceptBalance).Ok? && FeeKept(s.x)
    ensures offered == MoveLeft(s, Local(OfferToClose(acceptBalance))) && held == MoveRight(offered, Deliver)
    ensures accepted == MoveRight(held, Local(AcceptToClose)) && confirmed == MoveLeft(accepted, Deliver)
    ensures secret == MoveRight(confirmed, Deliver) && closed == MoveLeft(secret, Deliver)
    ensures Common(closed) && Idle(closed) && Pays(s, closed, acceptBalance)
  {
    offered := CloseOffered(s, acceptBalance);
    held := CloseHeld(offered);
    accepted := CloseAcceptedAt(held);
    confirmed := CloseConfirmedAt(accepted);
    assert Pays(s, confirmed, acceptBalance) by {
      ClosingAmounts(s, confirmed, acceptBalance);
    }
    secret := SecretTaken(confirmed);
    closed := CloseEnds(secret);
  }

  /** A closing that is offered and accepted: both end with the Lightning channel alone,
      the party that offers it with what the other does not get of the stake, for its
      collateral, and the other with the balance of the offer, for its own; but for the
      odd satoshi of the fee. */
  lemma ClosingPays(s: SubPair, acceptBalance: nat)
    requires Common(s) && BothSigned(s) && OfferClose(s.x, acceptBalance).Ok? && FeeKept(s.x)
    ensures var closed := Play(s, ClosingTurns(acceptBalance));
            Common(closed) && Idle(closed) && Pays(s, closed, acceptBalance)
  {
    var offered, held, accepted, confirmed, secret, closed := ClosingRun(s, acceptBalance);
    PlaySix(s, ClosingTurns(acceptBalance), offered, held, accepted, confirmed, secret);
  }

  lemma SettledInside(s: SubPair, p: nat) returns (r: SubPair)
    requires Common(s) && BothSigned(s) && p <= Stake(TermsOf(s.x).value)
    ensures r == Rearranged(s, Some(p)) && Common(r) && BothSigned(r) && Unmoved(s, r)
    ensures r.x.sub.value.state.signed.payouts == Some((p, Stake(TermsOf(s.x).value) - p))
  {
    r := Rearranged(s, Some(p));
    RearrangedOk(s, Some(p));
  }

  /** After a settlement inside, for a payout of `p` to the party that then offers to
      close, the offer is possible for one balance only, */
  lemma SettledClosesFor(s: SubPair, p: nat, acceptBalance: nat)
    requires Common(s) && BothSigned(s) && p <= Stake(TermsOf(s.x).value)
    ensures OfferClose(Rearranged(s, Some(p)).x, acceptBalance).Ok? <==> acceptBalance == Stake(TermsOf(s.x).value) - p
  {
    var settled := SettledInside(s, p);
    ClosesFor(settled, acceptBalance);
  }

  lemma SettledCloseOffered(s: SubPair, p: nat) returns (offered: SubPair)
    requires Common(s) && BothSigned(s) && p <= Stake(TermsOf(s.x).value)
    ensures offered == MoveLeft(Rearranged(s, Some(p)), Local(OfferToClose(Stake(TermsOf(s.x).value) - p)))
    ensures Common(offered) && CloseOfferSent(offered) && Shares(offered.x, p, Stake(TermsOf(s.x).value) - p)
  {
    var acceptBalance := Stake(TermsOf(s.x).value) - p;
    var settled := SettledInside(s, p);
    SettledClosesFor(s, p, acceptBalance);
    offered := CloseOffered(settled, acceptBalance);
  }

  /** and then it is held with that payout on both sides, */
  lemma SettledCloseHeld(s: SubPair, p: nat) returns (offered: SubPair, held: SubPair)
    requires Common(s) && BothSigned(s) && p <= Stake(TermsOf(s.x).value)
    ensures offered == MoveLeft(Rearranged(s, Some(p)), Local(OfferToClose(Stake(TermsOf(s.x).value) - p)))
    ensures held == MoveRight(offered, Deliver) && CloseOfferHeld(held)
    ensures Shares(held.x, p, Stake(TermsOf(s.x).value) - p) && Shares(held.y, Stake(TermsOf(s.x).value) - p, p)
  {
    offered := SettledCloseOffered(s, p);
    held := CloseHeld(offered);
  }

  /** and closing pays it. */
  lemma SettledClosingPays(s: SubPair, p: nat)
    requires Common(s) && BothSigned(s) && FeeKept(s.x) && p <= Stake(TermsOf(s.x).value)
    ensures var acceptBalance := Stake(TermsOf(s.x).value) - p;
            var closed := Play(Rearranged(s, Some(p)), ClosingTurns(acceptBalance));
            Common(closed) && Idle(closed) && Pays(s, closed, acceptBalance)
  {
    var acceptBalance := Stake(TermsOf(s.x).value) - p;
    var settled := SettledInside(s, p);
    assert OfferClose(settled.x, acceptBalance).Ok? by {
      SettledClosesFor(s, p, acceptBalance);
    }
    ClosingPays(settled, acceptBalance);
    PaysAlike(s, settled, Play(settled, ClosingTurns(acceptBalance)), acceptBalance);
  }

  lemma PaysAlike(s: SubPair, r: SubPair, closed: SubPair, acceptBalance: nat)
    requires Unmoved(s, r) && TermsOf(s.x).Some? && Pays(r, closed, acceptBalance)
    ensures Pays(s, closed, acceptBalance)
  {
  }
}
