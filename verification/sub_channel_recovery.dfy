/** What reconnecting makes of a pair after all messages under way were lost. */
module SubChannelRecovery {

  import opened Results
  import opened ChannelTypes
  import opened SubChannels
  import opened SubChannelActions
  import opened SubChannelPair

  /** The revocation and the close offer after it are both lost. */
  predicate RevokeLost(s: SubPair) {
    OffersClose(s.x) && Is(s.y, FlagFinalized)
  }

  /** A rejection is lost. */
  predicate RejectLost(s: SubPair) {
    OffersSub(s.x) && HasRejected(s.y) && SameIndex(s)
  }

  predicate NothingLostForGood(s: SubPair) {
    !RevokeLost(s) && !RevokeLost(Swap(s)) && !RejectLost(s) && !RejectLost(Swap(s))
  }

  /** What performing the one or two actions that a reestablishment can plan leads to. */
  lemma PerformOne(n: SubNode, a: Action)
    ensures PerformAll(n, [a], 1, true).0 == Perform(n, a, true).0
    ensures PerformAll(n, [a], 1, true).1 == Perform(n, a, true).1
    ensures PerformAll(n, [a], 1, true).2 == if Perform(n, a, true).2 then [a] else []
  {
    var actions := [a];
    assert PerformAll(n, actions, 0, true) == (n, [], []);
    assert [] + Perform(n, actions[0], true).1 == Perform(n, a, true).1;
  }

  lemma PerformTwo(n: SubNode, a: Action, b: Action)
    requires !Perform(n, a, true).2 && !Perform(Perform(n, a, true).0, b, true).2
    ensures PerformAll(n, [a, b], 2, true).0 == Perform(Perform(n, a, true).0, b, true).0
    ensures PerformAll(n, [a, b], 2, true).1 == Perform(n, a, true).1 + Perform(Perform(n, a, true).0, b, true).1
    ensures PerformAll(n, [a, b], 2, true).2 == []
  {
    var actions := [a, b];
    assert PerformAll(n, actions, 0, true) == (n, [], []);
    assert [] + Perform(n, actions[0], true).1 == Perform(n, a, true).1;
    assert PerformAll(n, actions, 1, true) == (Perform(n, a, true).0, Perform(n, a, true).1, []);
  }

  lemma ProcessOne(n: SubNode, a: Action)
    requires n.actions == [a] && !Perform(n.(actions := []), a, true).2
    ensures ProcessActions(n, true) ==
            (Perform(n.(actions := []), a, true).0.(actions := []), Perform(n.(actions := []), a, true).1)
  {
    PerformOne(n.(actions := []), a);
  }

  lemma ProcessTwo(n: SubNode, a: Action, b: Action)
    requires n.actions == [a, b]
    requires var n0 := n.(actions := []); !Perform(n0, a, true).2 && !Perform(Perform(n0, a, true).0, b, true).2
    ensures var n0 := n.(actions := []); var n1 := Perform(n0, a, true).0;
            ProcessActions(n, true) ==
            (Perform(n1, b, true).0.(actions := []), Perform(n0, a, true).1 + Perform(n1, b, true).1)
  {
    PerformTwo(n.(actions := []), a, b);
  }

  /** A party after the reestablishment, with what it sends. */
  function Resumed(n: SubNode, peer: Option<Flag>): (SubNode, seq<SubMessage>) {
    ProcessActions(Reestablished(n, peer), true)
  }

  lemma ResumeOffering(n: SubNode, peer: Option<Flag>)
    requires NodeOk(n) && OffersSub(n)
    ensures peer == None || peer == Some(FlagOffChainClosed) ==> Resumed(n, peer) == (n, [OfferMessage(n)])
    ensures peer == Some(FlagCloseConfirmed) ==>
              Resumed(n, peer) ==
              (n, [CloseFinalize(Secret(n.party, n.sub.value.updateIdx + 1), false), OfferMessage(n)])
    ensures peer.Some? && peer.value !in {FlagOffChainClosed, FlagCloseConfirmed} ==> Resumed(n, peer) == (n, [])
  {
    var r := Reestablished(n, peer);
    if |r.actions| == 1 {
      ProcessOne(r, r.actions[0]);
    } else if |r.actions| == 2 {
      var a, b := r.actions[0], r.actions[1];
      assert r.actions == [a, b];
      ProcessTwo(r, a, b);
      assert Perform(n, a, true).1 + Perform(n, b, true).1 == [Perform(n, a, true).1[0], OfferMessage(n)];
    }
  }

  /** Having accepted, a party goes back and accepts again, with the same result. */
  lemma ResumeAccepted(n: SubNode, peer: Option<Flag>)
    requires NodeOk(n) && Is(n, FlagAccepted)
    ensures Resumed(n, peer) == (n, [Accept(n.sub.value.state.acceptPoint, n.ln)])
  {
    var r := Reestablished(n, peer);
    assert AcceptSubChannel(r.(actions := [])) == Ok((n, Some(Accept(n.sub.value.state.acceptPoint, n.ln))));
    ProcessOne(r, ReAccept);
  }

  lemma ResumeConfirmed(n: SubNode, peer: Option<Flag>)
    requires NodeOk(n) && Is(n, FlagConfirmed)
    ensures var s := n.sub.value.state;
            Resumed(n, peer) == (InState(n, Offered(s.ownPoint, s.split.terms)).(ln := s.rollBack), [])
  {
  }

  lemma ResumeFinalized(n: SubNode, peer: Option<Flag>)
    requires NodeOk(n) && Is(n, FlagFinalized) && peer.Some?
    ensures var g := n.sub.value.state.signed;
            Resumed(n, peer) ==
            if peer == Some(FlagSigned) then (InState(n, SignedState(g)), [])
            else (InState(n, Accepted(g.counterPoint, g.ownPoint, g.split, g.rollBack)), [Accept(g.ownPoint, n.ln)])
  {
    var r := Reestablished(n, peer);
    if peer == Some(FlagSigned) {
      ProcessOne(r, ForceSign);
    } else {
      var g := n.sub.value.state.signed;
      assert AcceptSubChannel(r.(actions := [])) ==
             Ok((InState(n, Accepted(g.counterPoint, g.ownPoint, g.split, g.rollBack)),
                 Some(Accept(g.ownPoint, n.ln))));
      ProcessOne(r, ReAccept);
    }
  }

  lemma ResumeClosing(n: SubNode, peer: Option<Flag>)
    requires NodeOk(n) && (Is(n, FlagSigned) || Is(n, FlagCloseOffered))
    ensures Resumed(n, peer) ==
            if OffersClose(n) && peer == Some(FlagSigned)
            then (n, [SubMessage.CloseOffer(n.sub.value.state.acceptBalance)])
            else (n, [])
  {
    var r := Reestablished(n, peer);
    if OffersClose(n) && peer == Some(FlagSigned) {
      ProcessOne(r, r.actions[0]);
    }
  }

  lemma ResumeCloseAccepted(n: SubNode, peer: Option<Flag>)
    requires NodeOk(n) && Is(n, FlagCloseAccepted)
    ensures Resumed(n, peer) == (n, [CloseAccept(n.ln)])
  {
    var r := Reestablished(n, peer);
    assert AcceptClose(r.(actions := [])) == Ok((n, Some(CloseAccept(n.ln))));
    ProcessOne(r, r.actions[0]);
  }

  lemma ResumeCloseConfirmed(n: SubNode, peer: Option<Flag>)
    requires NodeOk(n) && Is(n, FlagCloseConfirmed) && peer.Some?
    ensures var s := n.sub.value.state;
            Resumed(n, peer) ==
            if peer == Some(FlagCloseAccepted)
            then (InState(n, SubState.CloseOffered(s.signed, s.ownBalance, s.counterBalance, true)).(ln := s.rollBack),
                  [])
            else (InState(n, s.(checkLnSecret := false)), [])
  {
  }

  lemma ResumeClosed(n: SubNode, peer: Option<Flag>)
    requires NodeOk(n) && (n.sub.None? || Is(n, FlagOffChainClosed) || HasRejected(n))
    ensures Resumed(n, peer) ==
            if Is(n, FlagOffChainClosed) && peer == Some(FlagCloseConfirmed)
            then (n, [CloseFinalize(Secret(n.party, n.sub.value.updateIdx), false)])
            else (n, [])
  {
    var r := Reestablished(n, peer);
    if Is(n, FlagOffChainClosed) && peer == Some(FlagCloseConfirmed) {
      ProcessOne(r, r.actions[0]);
    }
  }

  /** The terms under negotiation or in force. */
  function TermsOf(n: SubNode): Option<Terms> {
    if n.sub.None? then None
    else
      match n.sub.value.state
      case Offered(_, terms) => Some(terms)
      case Accepted(_, _, split, _) => Some(split.terms)
      case Confirmed(_, _, split, _) => Some(split.terms)
      case Finalized(signed) => Some(signed.split.terms)
      case SignedState(signed) => Some(signed.split.terms)
      case CloseOffered(signed, _, _, _) => Some(signed.split.terms)
      case CloseAccepted(signed, _, _, _) => Some(signed.split.terms)
      case CloseConfirmed(signed, _, _, _, _) => Some(signed.split.terms)
      case _ => None
  }

  /** What the two agreed on for the closing: first the share of the party itself. */
  function BalancesOf(n: SubNode): Option<(nat, nat)> {
    if n.sub.None? then None
    else
      match n.sub.value.state
      case CloseOffered(_, offerBalance, acceptBalance, isOffer) =>
        Some(if isOffer then (offerBalance, acceptBalance) else (acceptBalance, offerBalance))
      case CloseAccepted(_, own, counter, _) => Some((own, counter))
      case CloseConfirmed(_, own, counter, _, _) => Some((own, counter))
      case _ => None
  }

  predicate Unchanged(n: SubNode, n': SubNode) {
    Base(n') == Base(n) && TermsOf(n') == TermsOf(n) && BalancesOf(n') == BalancesOf(n)
  }

  lemma OfferRecovered(s: SubPair)
    requires Common(s) && (OfferSent(s) || OfferHeld(s))
    ensures Reconnect(s) == s
  {
    ResumeOffering(s.x, ReestablishFlag(s.y));
    if OfferSent(s) {
      ResumeClosed(s.y, ReestablishFlag(s.x));
    }
  }

  lemma AcceptRecovered(s: SubPair)
    requires Common(s) && AcceptSent(s)
    ensures Reconnect(s) == s
  {
    ResumeOffering(s.x, ReestablishFlag(s.y));
    ResumeAccepted(s.y, ReestablishFlag(s.x));
  }

  lemma ConfirmRecovered(s: SubPair)
    requires Common(s) && ConfirmSent(s)
    ensures Common(Reconnect(s)) && AcceptSent(Reconnect(s))
    ensures Unchanged(s.x, Reconnect(s).x) && Unchanged(s.y, Reconnect(s).y)
  {
    ResumeConfirmed(s.x, ReestablishFlag(s.y));
    ResumeAccepted(s.y, ReestablishFlag(s.x));
  }

  lemma FinalizeRecovered(s: SubPair)
    requires Common(s) && FinalizeSent(s)
    ensures Common(Reconnect(s)) && AcceptSent(Reconnect(s))
    ensures Unchanged(s.x, Reconnect(s).x) && Unchanged(s.y, Reconnect(s).y)
  {
    ResumeConfirmed(s.x, ReestablishFlag(s.y));
    ResumeFinalized(s.y, ReestablishFlag(s.x));
  }

  lemma RevokeRecovered(s: SubPair)
    requires Common(s) && RevokeSent(s) && Is(s.x, FlagSigned)
    ensures Common(Reconnect(s)) && BothSigned(Reconnect(s))
    ensures Unchanged(s.x, Reconnect(s).x) && Unchanged(s.y, Reconnect(s).y)
  {
    ResumeClosing(s.x, ReestablishFlag(s.y));
    ResumeFinalized(s.y, ReestablishFlag(s.x));
  }

  lemma SignedRecovered(s: SubPair)
    requires Common(s) && (BothSigned(s) || CloseOfferSent(s) || CloseOfferHeld(s))
    ensures Reconnect(s) == s
  {
    ResumeClosing(s.x, ReestablishFlag(s.y));
    ResumeClosing(s.y, ReestablishFlag(s.x));
  }

  /** A lost rejection of a close offer only makes the offer come again. */
  lemma CloseRejectRecovered(s: SubPair)
    requires Common(s) && CloseRejectSent(s)
    ensures Common(Reconnect(s)) && CloseOfferSent(Reconnect(s))
    ensures Unchanged(s.x, Reconnect(s).x) && Unchanged(s.y, Reconnect(s).y)
  {
    ResumeClosing(s.x, ReestablishFlag(s.y));
    ResumeClosing(s.y, ReestablishFlag(s.x));
  }

  lemma CloseAcceptRecovered(s: SubPair)
    requires Common(s) && CloseAcceptSent(s)
    ensures Reconnect(s) == s.(yx := [CloseAccept(s.y.ln)])
  {
    ResumeClosing(s.x, ReestablishFlag(s.y));
    ResumeCloseAccepted(s.y, ReestablishFlag(s.x));
  }

  lemma CloseConfirmRecovered(s: SubPair)
    requires Common(s) && CloseConfirmSent(s)
    ensures Common(Reconnect(s)) && CloseAcceptSent(Reconnect(s))
    ensures Unchanged(s.x, Reconnect(s).x) && Unchanged(s.y, Reconnect(s).y)
  {
    ResumeCloseConfirmed(s.x, ReestablishFlag(s.y));
    ResumeCloseAccepted(s.y, ReestablishFlag(s.x));
  }

  /** A party that waits for the end of the closing no longer asks for the commitment secret. */
  function Reconnected(n: SubNode): SubNode {
    if Is(n, FlagCloseConfirmed) then InState(n, n.sub.value.state.(checkLnSecret := false)) else n
  }

  lemma CloseFinalizeRecovered(s: SubPair)
    requires Common(s) && CloseFinalizeSent(s)
    ensures Common(Reconnect(s)) && CloseFinalizeSent(Reconnect(s))
    ensures Reconnect(s).x == Reconnected(s.x) && Reconnect(s).y == s.y
    ensures Unchanged(s.x, Reconnect(s).x) && Unchanged(s.y, Reconnect(s).y)
  {
    ResumeCloseConfirmed(s.x, ReestablishFlag(s.y));
    if OffersSub(s.y) {
      ResumeOffering(s.y, ReestablishFlag(s.x));
    } else {
      ResumeClosed(s.y, ReestablishFlag(s.x));
    }
  }

  lemma IdleRecovered(s: SubPair)
    requires Common(s) && Idle(s)
    ensures Reconnect(s) == s
  {
    ResumeClosed(s.x, ReestablishFlag(s.y));
    ResumeClosed(s.y, ReestablishFlag(s.x));
  }

  // ---- What it means ----

  lemma EstablishingRecovered(s: SubPair)
    requires Common(s) && !RevokeLost(s)
    requires OfferSent(s) || OfferHeld(s) || AcceptSent(s) || ConfirmSent(s) || FinalizeSent(s) || RevokeSent(s)
    ensures PairOk(Reconnect(s))
    ensures Unchanged(s.x, Reconnect(s).x) && Unchanged(s.y, Reconnect(s).y)
  {
    if OfferSent(s) || OfferHeld(s) {
      OfferRecovered(s);
    } else if AcceptSent(s) {
      AcceptRecovered(s);
    } else if ConfirmSent(s) {
      ConfirmRecovered(s);
    } else if FinalizeSent(s) {
      FinalizeRecovered(s);
    } else {
      RevokeRecovered(s);
    }
  }

  lemma ClosingRecovered(s: SubPair)
    requires Common(s)
    requires CloseOfferSent(s) || CloseOfferHeld(s) || CloseRejectSent(s) || CloseAcceptSent(s) || CloseConfirmSent(s)
             || CloseFinalizeSent(s)
    ensures PairOk(Reconnect(s))
    ensures Unchanged(s.x, Reconnect(s).x) && Unchanged(s.y, Reconnect(s).y)
  {
    if CloseOfferSent(s) || CloseOfferHeld(s) {
      SignedRecovered(s);
    } else if CloseRejectSent(s) {
      CloseRejectRecovered(s);
    } else if CloseAcceptSent(s) {
      CloseAcceptRecovered(s);
    } else if CloseConfirmSent(s) {
      CloseConfirmRecovered(s);
    } else {
      CloseFinalizeRecovered(s);
    }
  }

  lemma NegotiationRecovered(s: SubPair)
    requires Common(s) && Negotiating(s) && !RevokeLost(s) && !RejectLost(s)
    ensures PairOk(Reconnect(s))
    ensures Unchanged(s.x, Reconnect(s).x) && Unchanged(s.y, Reconnect(s).y)
  {
    if OfferSent(s) || OfferHeld(s) || AcceptSent(s) || ConfirmSent(s) || FinalizeSent(s) || RevokeSent(s) {
      EstablishingRecovered(s);
    } else {
      ClosingRecovered(s);
    }
  }

  lemma LostRevokeOutcome(s: SubPair)
    requires Common(s) && RevokeSent(s) && RevokeLost(s)
    ensures Reconnect(s).x == s.x && Is(Reconnect(s).y, FlagAccepted) && NodeOk(Reconnect(s).y)
    ensures Reconnect(s).y.sub.value.(state := s.y.sub.value.state) == s.y.sub.value && Reconnect(s).xy == []
    ensures |Reconnect(s).yx| == 1 && Reconnect(s).yx[0].Accept? && Reconnect(s).y.party == s.y.party
  {
    ResumeClosing(s.x, ReestablishFlag(s.y));
    ResumeFinalized(s.y, ReestablishFlag(s.x));
  }

  lemma StrandedIsNotOk(s: SubPair)
    requires Stranded(s)
    ensures !PairOk(s)
  {
  }

  /** After a lost revocation with a close offer behind it, the accepting party goes
      back to accepting while the other waits for the closing. */
  lemma LostRevokeStrands(s: SubPair)
    requires Common(s) && RevokeSent(s) && RevokeLost(s)
    ensures Common(Reconnect(s)) && Stranded(Reconnect(s)) && !PairOk(Reconnect(s))
  {
    LostRevokeOutcome(s);
    StrandedIsNotOk(Reconnect(s));
  }

  /** One party accepts an offer that the other thinks long established. */
  predicate Stranded(s: SubPair) {
    && OffersClose(s.x) && Is(s.y, FlagAccepted) && SameIndex(s)
    && (s.xy == [] || s.xy == [SubMessage.CloseOffer(s.x.sub.value.state.acceptBalance)])
    && (s.yx == [] || (|s.yx| == 1 && s.yx[0].Accept?))
  }

  lemma StrandedMoves(s: SubPair, m: Move)
    requires Common(s) && Stranded(s)
    ensures MoveLeft(s, m).x == s.x && MoveLeft(s, m).y == s.y && Stranded(MoveLeft(s, m))
    ensures MoveRight(s, m).x == s.x && MoveRight(s, m).y == s.y && Stranded(MoveRight(s, m))
  {
    if m.Local? {
      NoChoice(s, m.choice);
      NoChoice(Swap(s), m.choice);
    }
  }

  lemma StrandedReconnects(s: SubPair)
    requires Common(s) && Stranded(s)
    ensures Reconnect(s).x == s.x && Reconnect(s).y == s.y && Stranded(Reconnect(s))
  {
    ResumeClosing(s.x, ReestablishFlag(s.y));
    ResumeAccepted(s.y, ReestablishFlag(s.x));
  }

  /** The offer of one party is under way to another that has rejected it before. */
  predicate OutOfStep(s: SubPair) {
    RejectLost(s) && s.xy == [OfferMessage(s.x)] && s.yx == []
  }

  lemma OutOfStepIsNotOk(s: SubPair)
    requires OutOfStep(s)
    ensures !PairOk(s)
  {
  }

  /** After a lost rejection the offer comes again, */
  lemma LostRejectPutsOutOfStep(s: SubPair)
    requires Common(s) && RejectSent(s)
    ensures OutOfStep(Reconnect(s)) && !PairOk(Reconnect(s))
  {
    ResumeOffering(s.x, ReestablishFlag(s.y));
    ResumeClosed(s.y, ReestablishFlag(s.x));
    OutOfStepIsNotOk(Reconnect(s));
  }

  /** and if it is taken in, then at the wrong index. */
  lemma OutOfStepOffer(s: SubPair)
    requires Common(s) && OutOfStep(s)
    ensures var r := MoveRight(s, Deliver);
            r.x == s.x && (Is(r.y, FlagOffered) ==> r.y.sub.value.updateIdx + 1 == r.x.sub.value.updateIdx)
  {
  }

  lemma NegotiationConverges(s: SubPair)
    requires Common(s) && Negotiating(s)
    ensures PairOk(Reconnect(s)) <==> !RevokeLost(s) && !RejectLost(s)
    ensures PairOk(Reconnect(s)) ==> Unchanged(s.x, Reconnect(s).x) && Unchanged(s.y, Reconnect(s).y)
    ensures !RevokeLost(Swap(s)) && !RejectLost(Swap(s))
  {
    if RevokeLost(s) {
      LostRevokeStrands(s);
    } else if RejectLost(s) {
      LostRejectPutsOutOfStep(s);
    } else {
      NegotiationRecovered(s);
    }
  }

  lemma SwapPairOk(s: SubPair)
    ensures PairOk(s) <==> PairOk(Swap(s))
  {
    assert Swap(Swap(s)) == s;
    if PairOk(s) {
      SwapKeepsPairOk(s);
    }
    if PairOk(Swap(s)) {
      SwapKeepsPairOk(Swap(s));
    }
  }

  lemma ReconnectAtOnce(s: SubPair)
    requires PairOk(s)
    ensures PairOk(Reconnect(s)) <==> NothingLostForGood(s)
    ensures PairOk(Reconnect(s)) ==> Unchanged(s.x, Reconnect(s).x) && Unchanged(s.y, Reconnect(s).y)
  {
    if Negotiating(s) {
      NegotiationConverges(s);
    } else if Negotiating(Swap(s)) {
      assert Reconnect(Swap(s)) == Swap(Reconnect(s)) && Swap(Swap(s)) == s;
      NegotiationConverges(Swap(s));
      SwapPairOk(Reconnect(s));
    } else {
      RestConverges(s);
    }
  }

  lemma RestConverges(s: SubPair)
    requires Common(s) && (Idle(s) || BothSigned(s))
    ensures Reconnect(s) == s && NothingLostForGood(s)
  {
    if Idle(s) {
      IdleRecovered(s);
    } else {
      SignedRecovered(s);
    }
  }

  // ---- Waiting for the Lightning channel ----

  /** The reconnection when the actions of each party are processed so many times while
      its Lightning channel is not usable yet. */
  function ReconnectAfter(s: SubPair, xRounds: nat, yRounds: nat): SubPair {
    var (x, fromX) := Rounds(Reestablished(s.x, ReestablishFlag(s.y)), xRounds);
    var (y, fromY) := Rounds(Reestablished(s.y, ReestablishFlag(s.x)), yRounds);
    SubPair(x, y, fromX, fromY)
  }

  lemma RoundsResume(n: SubNode, peer: Option<Flag>, unusable: nat)
    requires n.actions == []
    ensures Rounds(Reestablished(n, peer), unusable) == Resumed(n, peer)
  {
    if Reestablish(n, peer).Ok? {
      PlansUniformly(n, peer);
    }
    UniformRounds(Reestablished(n, peer), unusable);
  }

  /** It makes no difference how long that takes. */
  lemma WaitingReconnects(s: SubPair, xRounds: nat, yRounds: nat)
    requires s.x.actions == [] && s.y.actions == []
    ensures ReconnectAfter(s, xRounds, yRounds) == Reconnect(s)
  {
    RoundsResume(s.x, ReestablishFlag(s.y), xRounds);
    RoundsResume(s.y, ReestablishFlag(s.x), yRounds);
  }

  /** Whatever was lost, and however long the Lightning channel is not usable, the two
      parties find back together on unchanged terms and balances, unless it was a
      revocation with a close offer after it, or the rejection of a sub channel. */
  lemma ReconnectConverges(s: SubPair, xRounds: nat, yRounds: nat)
    requires PairOk(s)
    ensures var r := ReconnectAfter(s, xRounds, yRounds);
            && (PairOk(r) <==> NothingLostForGood(s))
            && (PairOk(r) ==> Unchanged(s.x, r.x) && Unchanged(s.y, r.y))
  {
    WaitingReconnects(s, xRounds, yRounds);
    ReconnectAtOnce(s);
  }

  lemma ReportKeepsState(n: SubNode, peer: Option<Flag>)
    requires NodeStateOk(n) && Reestablish(n, peer).Ok?
    ensures NodeStateOk(Reestablish(n, peer).value)
  {
  }

  lemma ReportKeepsTerms(n: SubNode, peer: Option<Flag>)
    requires NodeStateOk(n) && Reestablish(n, peer).Ok?
    ensures Unchanged(n, Reestablish(n, peer).value)
  {
  }

  /** Whatever state a peer reports, the party goes on with the same terms and balances and
      with a Lightning channel that fits its state. It panics exactly if it has no split seed
      and needs one: closed, when anything is reported, or with a new offer, when the peer
      still waits for the closing. */
  lemma AnyReportIsHandled(n: SubNode, peer: Option<Flag>)
    requires NodeStateOk(n)
    ensures var r := Reestablish(n, peer); r.Ok? ==> NodeStateOk(r.value) && Unchanged(n, r.value)
    ensures Reestablish(n, peer).Err? <==>
            && n.sub.Some? && !n.sub.value.hasSeed
            && ((Is(n, FlagOffChainClosed) && peer.Some?) || (OffersSub(n) && peer == Some(FlagCloseConfirmed)))
  {
    if Reestablish(n, peer).Ok? {
      ReportKeepsState(n, peer);
      ReportKeepsTerms(n, peer);
    }
  }

  /** Once stranded, no delivery, no choice of either party and no further reconnecting
      leads anywhere: neither party's state changes any more. */
  lemma StrandedForGood(s: SubPair, m: Move, xRounds: nat, yRounds: nat)
    requires Common(s) && Stranded(s)
    ensures forall r :: r in {MoveLeft(s, m), MoveRight(s, m), ReconnectAfter(s, xRounds, yRounds)} ==>
              Stranded(r) && r.x == s.x && r.y == s.y
  {
    StrandedMoves(s, m);
    StrandedReconnects(s);
    WaitingReconnects(s, xRounds, yRounds);
  }
}
