/** Two parties with a sub channel, whose messages can be lost by a disconnect at
    any point, and what reconnecting makes of it. */
module SubChannelPair {

  import opened Results
  import opened ChannelTypes
  import opened SubChannels

  datatype SubPair = SubPair(x: SubNode, y: SubNode, xy: seq<SubMessage>, yx: seq<SubMessage>)

  function Swap(s: SubPair): SubPair {
    SubPair(s.y, s.x, s.yx, s.xy)
  }

  datatype Choice =
    | OfferSub(terms: Terms) | AcceptSub | RejectSub
    | OfferToClose(acceptBalance: nat) | AcceptToClose | RejectToClose

  datatype Move = Local(choice: Choice) | Deliver

  predicate Is(n: SubNode, flag: Flag) {
    ReestablishFlag(n) == Some(flag)
  }

  predicate OffersSub(n: SubNode) {
    Is(n, FlagOffered) && n.sub.value.isOffer
  }

  predicate OffersClose(n: SubNode) {
    Is(n, FlagCloseOffered) && n.sub.value.state.isOffer
  }

  predicate HasRejected(n: SubNode) {
    n.sub.Some? && n.sub.value.state.Rejected?
  }

  /** What these runs assume: one party starts each negotiation, and nobody answers an
      offer of their own. */
  predicate Allowed(s: SubPair, c: Choice) {
    match c
    case OfferSub(_) => !OffersSub(s.y)
    case AcceptSub => !OffersSub(s.x)
    case RejectSub => !OffersSub(s.x)
    case OfferToClose(_) => !OffersClose(s.y)
    case AcceptToClose => true
    case RejectToClose => !OffersClose(s.x)
  }

  function StepOf(n: SubNode, c: Choice): SubStep {
    match c
    case OfferSub(terms) => OfferSubChannel(n, terms)
    case AcceptSub => AcceptSubChannel(n)
    case OfferToClose(acceptBalance) => OfferClose(n, acceptBalance)
    case AcceptToClose => AcceptClose(n)
    case RejectSub => RejectSubChannel(n)
    case RejectToClose => RejectClose(n)
  }

  function Queued(q: seq<SubMessage>, m: Option<SubMessage>): seq<SubMessage> {
    if m.None? then q else q + [m.value]
  }

  function MoveLeft(s: SubPair, m: Move): SubPair {
    match m
    case Local(c) =>
      if !Allowed(s, c) then s
      else
        (match StepOf(s.x, c)
         case Err(_) => s
         case Ok((x, reply)) => s.(x := x, xy := Queued(s.xy, reply)))
    case Deliver =>
      if s.yx == [] then s
      else
        match Receive(s.x, s.yx[0])
        case Err(_) => s.(yx := s.yx[1..])
        case Ok((x, reply)) => s.(x := x, xy := Queued(s.xy, reply), yx := s.yx[1..])
  }

  function MoveRight(s: SubPair, m: Move): SubPair {
    Swap(MoveLeft(Swap(s), m))
  }

  function Reestablished(n: SubNode, peer: Option<Flag>): SubNode {
    match Reestablish(n, peer)
    case Err(_) => n
    case Ok(n') => n'
  }

  /** All messages under way are lost; each party learns the state the other is in
      and acts on it. */
  function Reconnect(s: SubPair): SubPair {
    var (x, fromX) := ProcessActions(Reestablished(s.x, ReestablishFlag(s.y)), true);
    var (y, fromY) := ProcessActions(Reestablished(s.y, ReestablishFlag(s.x)), true);
    SubPair(x, y, fromX, fromY)
  }

  // ---- One party ----

  /** What the parties had in the Lightning channel before the split, which closing
      settles against; with the terms it determines what they end up with. */
  function Base(n: SubNode): Ln {
    if n.sub.None? then n.ln
    else
      match n.sub.value.state
      case Accepted(_, _, _, rollBack) => rollBack
      case Confirmed(_, _, _, rollBack) => rollBack
      case Finalized(signed) => signed.rollBack
      case SignedState(signed) => signed.rollBack
      case CloseOffered(signed, _, _, _) => signed.rollBack
      case CloseAccepted(signed, _, _, _) => signed.rollBack
      case CloseConfirmed(signed, _, _, _, _) => signed.rollBack
      case _ => n.ln
  }

  predicate SignedOk(n: SubNode, signed: Signed)
    requires n.sub.Some?
  {
    var p, s := n.party, n.sub.value;
    && signed.ownPoint == Point(p, s.updateIdx) && signed.counterPoint == Point(Other(p), s.updateIdx)
    && signed.rollBack.funding == Original && signed.rollBack.value == s.fundValue
    && (signed.payouts.Some? ==> signed.payouts.value.0 + signed.payouts.value.1 == Stake(signed.split.terms))
    && signed.split.offerPoint == (if s.isOffer then signed.ownPoint else signed.counterPoint)
    && signed.split.acceptPoint == (if s.isOffer then signed.counterPoint else signed.ownPoint)
  }

  /** The Lightning channel is where the state says, and how it got there is known. */
  predicate NodeStateOk(n: SubNode) {
    if n.sub.None? then n.ln.funding == Original
    else
      var p, s := n.party, n.sub.value;
      match s.state
      case Offered(point, terms) =>
        && n.ln.funding == Original && n.ln.value == s.fundValue
        && point == Point(if s.isOffer then p else Other(p), s.updateIdx)
        && ValidateLnValues(n.ln, terms, s.isOffer).Ok?
      case Accepted(offerPoint, acceptPoint, split, rollBack) =>
        && !s.isOffer && SignedOk(n, Signed(acceptPoint, offerPoint, split, rollBack, None))
        && SplitLn(rollBack, split, false) == Ok(n.ln)
      case Confirmed(ownPoint, counterPoint, split, rollBack) =>
        && s.isOffer && SignedOk(n, Signed(ownPoint, counterPoint, split, rollBack, None))
        && SplitLn(rollBack, split, true) == Ok(n.ln)
      case Finalized(signed) =>
        && !s.isOffer && SignedOk(n, signed) && signed.payouts.None?
        && SplitLn(signed.rollBack, signed.split, false) == Ok(n.ln)
      case SignedState(signed) => SignedOk(n, signed) && SplitLn(signed.rollBack, signed.split, s.isOffer) == Ok(n.ln)
      case CloseOffered(signed, offerBalance, acceptBalance, isOffer) =>
        && SignedOk(n, signed) && SplitLn(signed.rollBack, signed.split, s.isOffer) == Ok(n.ln)
        && OfferBalance(signed, acceptBalance, isOffer) == Ok(offerBalance)
      case CloseAccepted(signed, own, counter, rollBack) =>
        && SignedOk(n, signed) && SplitLn(signed.rollBack, signed.split, s.isOffer) == Ok(rollBack)
        && OfferBalance(signed, own, false) == Ok(counter) && n.ln == ClosedLn(rollBack, s.fundValue, s.fee, own, false)
      case CloseConfirmed(signed, own, counter, rollBack, _) =>
        && SignedOk(n, signed) && SplitLn(signed.rollBack, signed.split, s.isOffer) == Ok(rollBack)
        && OfferBalance(signed, counter, true) == Ok(own) && n.ln == ClosedLn(rollBack, s.fundValue, s.fee, own, true)
        && signed.split.terms.fee == s.fee
      case OffChainClosed => n.ln.funding == Original && n.ln.value == s.fundValue
      case Rejected => n.ln.funding == Original && n.ln.value == s.fundValue
  }

  /** The peer's secrets for the closed sub channels so far, each in its place. */
  ghost predicate SecretsOk(n: SubNode) {
    n.sub.Some? ==>
      var s := n.sub.value;
      && s.updateIdx <= INITIAL_UPDATE_NUMBER
      && (forall k | k in s.secrets ::
            && k <= INITIAL_UPDATE_NUMBER && (s.updateIdx < k || (s.updateIdx == k && s.state.OffChainClosed?))
            && s.secrets[k] == Secret(Other(n.party), k))
      && (s.state.OffChainClosed? ==> s.updateIdx in s.secrets)
      && (s.hasSeed || ((s.state.Offered? || s.state.Rejected?) && !s.isOffer))
  }

  ghost predicate NodeOk(n: SubNode) {
    NodeStateOk(n) && SecretsOk(n) && n.actions == []
  }

  ghost predicate Common(s: SubPair) {
    NodeOk(s.x) && NodeOk(s.y) && s.y.party == Other(s.x.party)
    && (s.x.sub.Some? && s.y.sub.Some? ==> s.x.sub.value.fee == s.y.sub.value.fee)
  }

  // ---- Where the two can be ----

  predicate SameIndex(s: SubPair) {
    s.x.sub.Some? && s.y.sub.Some? && s.x.sub.value.updateIdx == s.y.sub.value.updateIdx
  }

  predicate Idle(s: SubPair) {
    && s.xy == [] && s.yx == [] && SameLn(s.x.ln, s.y.ln)
    && ((s.x.sub.None? && s.y.sub.None?)
        || (Is(s.x, FlagOffChainClosed) && Is(s.y, FlagOffChainClosed) && SameIndex(s))
        || (HasRejected(s.x) && HasRejected(s.y) && SameIndex(s)))
  }

  /** `y` has no sub channel, or a closed or rejected one at the index before. */
  predicate AwaitsOffer(y: SubNode, idx: nat) {
    if y.sub.None? then idx == INITIAL_UPDATE_NUMBER
    else (Is(y, FlagOffChainClosed) || HasRejected(y)) && y.sub.value.updateIdx == idx + 1
  }

  function OfferMessage(n: SubNode): SubMessage
    requires OffersSub(n)
  {
    Offer(n.sub.value.state.point, n.sub.value.state.terms)
  }

  predicate OfferSent(s: SubPair) {
    && OffersSub(s.x) && AwaitsOffer(s.y, s.x.sub.value.updateIdx)
    && (s.y.sub.None? ==> s.x.sub.value.state.terms.fee == s.x.sub.value.fee)
    && SameLn(s.x.ln, s.y.ln) && s.xy == [OfferMessage(s.x)] && s.yx == []
  }

  predicate OfferHeld(s: SubPair) {
    && OffersSub(s.x) && Is(s.y, FlagOffered) && !s.y.sub.value.isOffer && SameIndex(s)
    && s.y.sub.value.state == s.x.sub.value.state
    && SameLn(s.x.ln, s.y.ln) && s.xy == [] && s.yx == []
  }

  predicate RejectSent(s: SubPair) {
    && OffersSub(s.x) && HasRejected(s.y) && SameIndex(s)
    && SameLn(s.x.ln, s.y.ln) && s.xy == [] && s.yx == [RejectOffer]
  }

  predicate AcceptSent(s: SubPair) {
    && OffersSub(s.x) && Is(s.y, FlagAccepted) && SameIndex(s)
    && var a, b := s.x.sub.value.state, s.y.sub.value.state;
    && b.offerPoint == a.point && b.split.terms == a.terms && SameLn(s.x.ln, b.rollBack)
    && s.xy == [] && s.yx == [Accept(b.acceptPoint, s.y.ln)]
  }

  predicate ConfirmSent(s: SubPair) {
    && Is(s.x, FlagConfirmed) && Is(s.y, FlagAccepted) && SameIndex(s)
    && var a, b := s.x.sub.value.state, s.y.sub.value.state;
    && a.split == b.split && SameLn(a.rollBack, b.rollBack)
    && s.xy == [Confirm(s.x.ln)] && s.yx == []
  }

  predicate SameSigned(a: Signed, b: Signed) {
    && a.split == b.split && SameLn(a.rollBack, b.rollBack) && a.payouts.Some? == b.payouts.Some?
    && (a.payouts.Some? ==> a.payouts.value.0 == b.payouts.value.1 && a.payouts.value.1 == b.payouts.value.0)
  }

  /** The sub channel was opened at the fee that closing reckons with. */
  predicate FeeKept(n: SubNode)
    requires Is(n, FlagSigned) || Is(n, FlagCloseOffered) || Is(n, FlagCloseAccepted) || Is(n, FlagCloseConfirmed)
  {
    n.sub.value.state.signed.split.terms.fee == n.sub.value.fee
  }

  predicate FinalizeSent(s: SubPair) {
    && Is(s.x, FlagConfirmed) && Is(s.y, FlagFinalized) && SameIndex(s)
    && var a, b := s.x.sub.value.state, s.y.sub.value.state.signed;
    && a.split == b.split && SameLn(a.rollBack, b.rollBack)
    && s.xy == [] && s.yx == [Finalize]
  }

  predicate RevokeSent(s: SubPair) {
    && (Is(s.x, FlagSigned) || OffersClose(s.x)) && s.x.sub.value.isOffer && Is(s.y, FlagFinalized) && SameIndex(s)
    && SameSigned(s.x.sub.value.state.signed, s.y.sub.value.state.signed)
    && s.xy == [Revoke] + (if OffersClose(s.x) then [SubMessage.CloseOffer(s.x.sub.value.state.acceptBalance)] else [])
    && s.yx == []
  }

  predicate BothSigned(s: SubPair) {
    && Is(s.x, FlagSigned) && Is(s.y, FlagSigned) && SameIndex(s) && s.x.sub.value.isOffer != s.y.sub.value.isOffer
    && SameSigned(s.x.sub.value.state.signed, s.y.sub.value.state.signed)
    && s.xy == [] && s.yx == []
  }

  predicate CloseOfferSent(s: SubPair) {
    && OffersClose(s.x) && Is(s.y, FlagSigned) && SameIndex(s) && s.x.sub.value.isOffer != s.y.sub.value.isOffer
    && SameSigned(s.x.sub.value.state.signed, s.y.sub.value.state.signed)
    && s.xy == [SubMessage.CloseOffer(s.x.sub.value.state.acceptBalance)] && s.yx == []
  }

  predicate CloseOfferHeld(s: SubPair) {
    && OffersClose(s.x) && Is(s.y, FlagCloseOffered) && !s.y.sub.value.state.isOffer && SameIndex(s)
    && s.x.sub.value.isOffer != s.y.sub.value.isOffer
    && SameSigned(s.x.sub.value.state.signed, s.y.sub.value.state.signed)
    && s.y.sub.value.state.acceptBalance == s.x.sub.value.state.acceptBalance
    && s.xy == [] && s.yx == []
  }

  predicate CloseRejectSent(s: SubPair) {
    && OffersClose(s.x) && Is(s.y, FlagSigned) && SameIndex(s) && s.x.sub.value.isOffer != s.y.sub.value.isOffer
    && SameSigned(s.x.sub.value.state.signed, s.y.sub.value.state.signed)
    && s.xy == [] && s.yx == [RejectOffer]
  }

  /** An acceptance that was refused is sent again on reconnecting only. */
  predicate CloseAcceptSent(s: SubPair) {
    && OffersClose(s.x) && Is(s.y, FlagCloseAccepted) && SameIndex(s) && s.x.sub.value.isOffer != s.y.sub.value.isOffer
    && SameSigned(s.x.sub.value.state.signed, s.y.sub.value.state.signed)
    && s.y.sub.value.state.ownBalance == s.x.sub.value.state.acceptBalance
    && s.xy == [] && (s.yx == [CloseAccept(s.y.ln)] || (s.yx == [] && !FeeKept(s.x)))
  }

  predicate CloseConfirmSent(s: SubPair) {
    && Is(s.x, FlagCloseConfirmed) && Is(s.y, FlagCloseAccepted) && SameIndex(s)
    && s.x.sub.value.isOffer != s.y.sub.value.isOffer
    && SameSigned(s.x.sub.value.state.signed, s.y.sub.value.state.signed)
    && s.y.sub.value.state.ownBalance == s.x.sub.value.state.counterBalance
    && s.xy == [CloseConfirm(Secret(s.x.party, s.x.sub.value.updateIdx), s.x.ln)] && s.yx == []
  }

  /** `y` is done, and may have offered the next sub channel already. */
  predicate CloseFinalizeSent(s: SubPair) {
    && Is(s.x, FlagCloseConfirmed) && SameLn(s.x.ln, s.y.ln) && s.xy == []
    && (OffersSub(s.y) || Is(s.y, FlagOffChainClosed))
    && s.y.sub.value.updateIdx + (if OffersSub(s.y) then 1 else 0) == s.x.sub.value.updateIdx
    && |s.yx| > 0 && s.yx[0].CloseFinalize? && s.yx[0].secret == Secret(s.y.party, s.x.sub.value.updateIdx)
    && (s.yx[0].withCommitmentSecret || !s.x.sub.value.state.checkLnSecret)
    && s.yx[1..] == (if OffersSub(s.y) then [OfferMessage(s.y)] else [])
  }

  /** `x` has started a negotiation, and the two are in step in it. */
  predicate Negotiating(s: SubPair) {
    || OfferSent(s) || OfferHeld(s) || RejectSent(s) || AcceptSent(s) || ConfirmSent(s) || FinalizeSent(s)
    || RevokeSent(s)
    || CloseOfferSent(s) || CloseOfferHeld(s) || CloseRejectSent(s) || CloseAcceptSent(s) || CloseConfirmSent(s)
    || CloseFinalizeSent(s)
  }

  ghost predicate PairOk(s: SubPair) {
    Common(s) && (Idle(s) || BothSigned(s) || Negotiating(s) || Negotiating(Swap(s)))
  }

  // ---- Moves without loss ----

  lemma OfferDelivered(s: SubPair)
    requires Common(s) && OfferSent(s)
    ensures Common(MoveRight(s, Deliver)) && OfferHeld(MoveRight(s, Deliver))
  {
  }

  lemma AcceptMade(s: SubPair)
    requires Common(s) && OfferHeld(s)
    ensures Common(MoveRight(s, Local(AcceptSub))) && AcceptSent(MoveRight(s, Local(AcceptSub)))
  {
  }

  lemma RejectMade(s: SubPair)
    requires Common(s) && OfferHeld(s)
    ensures Common(MoveRight(s, Local(RejectSub))) && RejectSent(MoveRight(s, Local(RejectSub)))
  {
  }

  lemma RejectDelivered(s: SubPair)
    requires Common(s) && RejectSent(s)
    ensures Common(MoveLeft(s, Deliver)) && Idle(MoveLeft(s, Deliver))
  {
  }

  lemma AcceptDelivered(s: SubPair)
    requires Common(s) && AcceptSent(s)
    ensures Common(MoveLeft(s, Deliver)) && ConfirmSent(MoveLeft(s, Deliver))
  {
  }

  lemma ConfirmDelivered(s: SubPair)
    requires Common(s) && ConfirmSent(s)
    ensures Common(MoveRight(s, Deliver)) && FinalizeSent(MoveRight(s, Deliver))
  {
  }

  lemma FinalizeDelivered(s: SubPair)
    requires Common(s) && FinalizeSent(s)
    ensures Common(MoveLeft(s, Deliver)) && RevokeSent(MoveLeft(s, Deliver))
  {
  }

  lemma RevokeDelivered(s: SubPair)
    requires Common(s) && RevokeSent(s)
    ensures var r := MoveRight(s, Deliver); Common(r) && (BothSigned(r) || CloseOfferSent(r))
  {
  }

  lemma CloseOfferTaken(n: SubNode, m: SubMessage)
    requires NodeOk(n) && m.CloseOffer? && OnCloseOffer(n, m).Ok?
    ensures NodeOk(OnCloseOffer(n, m).value.0)
  {
  }

  lemma CloseOfferDelivered(s: SubPair)
    requires Common(s) && CloseOfferSent(s)
    ensures Common(MoveRight(s, Deliver)) && CloseOfferHeld(MoveRight(s, Deliver))
  {
    assert OnCloseOffer(s.y, s.xy[0]).Ok?;
    CloseOfferTaken(s.y, s.xy[0]);
  }

  lemma CloseTaken(n: SubNode)
    requires NodeOk(n) && AcceptClose(n).Ok?
    ensures NodeOk(AcceptClose(n).value.0)
  {
  }

  lemma CloseAcceptMade(s: SubPair)
    requires Common(s) && CloseOfferHeld(s)
    ensures Common(MoveRight(s, Local(AcceptToClose))) && CloseAcceptSent(MoveRight(s, Local(AcceptToClose)))
  {
    assert AcceptClose(s.y).Ok?;
    CloseTaken(s.y);
  }

  lemma CloseRejectMade(s: SubPair)
    requires Common(s) && CloseOfferHeld(s)
    ensures Common(MoveRight(s, Local(RejectToClose))) && CloseRejectSent(MoveRight(s, Local(RejectToClose)))
  {
  }

  lemma CloseRejectDelivered(s: SubPair)
    requires Common(s) && CloseRejectSent(s)
    ensures Common(MoveLeft(s, Deliver)) && BothSigned(MoveLeft(s, Deliver))
  {
  }

  /** Both parties come to the same Lightning channel, above the split transaction
      and after closing. */
  lemma SplitLnsAgree(a: Ln, b: Ln, split: SplitTx, isOffer: bool)
    requires SameLn(a, b) && SplitLn(a, split, isOffer).Ok? && SplitLn(b, split, !isOffer).Ok?
    ensures SameLn(SplitLn(a, split, isOffer).value, SplitLn(b, split, !isOffer).value)
  {
  }

  /** After closing exactly if the fee that is given back is the one that was taken. */
  lemma ClosedLnsAgree(a: Ln, b: Ln, split: SplitTx, fee: nat, ownBalance: nat, counterBalance: nat, opener: bool,
                       closer: bool)
    requires SameLn(a, b) && SplitLn(a, split, opener).Ok? && SplitLn(b, split, !opener).Ok?
    requires ownBalance + counterBalance == Stake(split.terms)
    ensures SameLn(ClosedLn(SplitLn(a, split, opener).value, a.value, fee, ownBalance, closer),
                   ClosedLn(SplitLn(b, split, !opener).value, b.value, fee, counterBalance, !closer))
            <==> fee == split.terms.fee
  {
  }

  /** The acceptance of a close offer is taken in exactly if the sub channel was opened
      at the fee that closing reckons with; otherwise the signature does not fit. */
  lemma CloseAcceptTakenIff(s: SubPair)
    requires NodeStateOk(s.x) && NodeStateOk(s.y) && CloseAcceptSent(s) && s.yx != []
    requires s.x.sub.value.fee == s.y.sub.value.fee
    ensures if FeeKept(s.x) then Receive(s.x, s.yx[0]).Ok? else Receive(s.x, s.yx[0]) == Err(BadProof)
  {
    var a, b := s.x.sub.value, s.y.sub.value;
    ClosedLnsAgree(a.state.signed.rollBack, b.state.signed.rollBack, a.state.signed.split, a.fee, a.state.offerBalance,
                   a.state.acceptBalance, a.isOffer, true);
  }

  lemma CloseAcceptDelivered(s: SubPair)
    requires Common(s) && CloseAcceptSent(s) && s.yx != []
    ensures var r := MoveLeft(s, Deliver);
            Common(r) && (if FeeKept(s.x) then CloseConfirmSent(r) else r.x == s.x && r.y == s.y && CloseAcceptSent(r))
  {
    CloseAcceptTakenIff(s);
    var r := MoveLeft(s, Deliver);
    if FeeKept(s.x) {
      assert NodeOk(r.x);
    }
  }

  /** The party that learns the split secret is done with the sub channel. */
  lemma SecretStored(n: SubNode, secret: Secret)
    requires NodeOk(n) && (Is(n, FlagCloseAccepted) || Is(n, FlagCloseConfirmed))
    requires secret == Secret(Other(n.party), n.sub.value.updateIdx)
    ensures var stored := StoreSecret(n.sub.value, n.sub.value.state.signed, secret);
            && stored.Ok? && NodeOk(With(n, stored.value)) && stored.value.state.OffChainClosed?
            && stored.value.(secrets := n.sub.value.secrets, state := n.sub.value.state) == n.sub.value
  {
  }

  lemma CloseConfirmDelivered(s: SubPair)
    requires Common(s) && CloseConfirmSent(s)
    ensures Common(MoveRight(s, Deliver)) && CloseFinalizeSent(MoveRight(s, Deliver))
  {
    var a, b := s.x.sub.value, s.y.sub.value;
    SecretStored(s.y, s.xy[0].secret);
    ClosedLnsAgree(a.state.signed.rollBack, b.state.signed.rollBack, a.state.signed.split, a.fee, a.state.ownBalance,
                   a.state.counterBalance, a.isOffer, true);
  }

  lemma CloseFinalizeDelivered(s: SubPair)
    requires Common(s) && CloseFinalizeSent(s)
    ensures var r := MoveLeft(s, Deliver); Common(r) && (Idle(r) || OfferSent(Swap(r)))
  {
    SecretStored(s.x, s.yx[0].secret);
  }

  // ---- Every move keeps the invariant ----

  lemma OfferMade(s: SubPair, terms: Terms)
    requires Common(s) && Idle(s)
    ensures var r := MoveLeft(s, Local(OfferSub(terms))); r == s || (Common(r) && OfferSent(r))
  {
  }

  lemma NextOfferMade(s: SubPair, terms: Terms)
    requires Common(s) && CloseFinalizeSent(s)
    ensures var r := MoveRight(s, Local(OfferSub(terms))); Common(r) && CloseFinalizeSent(r)
  {
  }

  lemma CloseOfferMade(s: SubPair, acceptBalance: nat)
    requires Common(s) && BothSigned(s)
    ensures var r := MoveLeft(s, Local(OfferToClose(acceptBalance))); r == s || (Common(r) && CloseOfferSent(r))
  {
  }

  lemma EarlyCloseOfferMade(s: SubPair, acceptBalance: nat)
    requires Common(s) && RevokeSent(s)
    ensures var r := MoveLeft(s, Local(OfferToClose(acceptBalance))); Common(r) && RevokeSent(r)
  {
  }

  /** A choice that the state of the party does not offer changes nothing. */
  lemma NoChoice(s: SubPair, c: Choice)
    requires c.OfferSub? ==> s.x.sub.Some? && !Is(s.x, FlagOffChainClosed) && s.x.sub.value.state != Rejected
    requires c.AcceptSub? || c.RejectSub? ==> !Is(s.x, FlagOffered) || OffersSub(s.x)
    requires c.OfferToClose? ==> !Is(s.x, FlagSigned)
    requires c.AcceptToClose? || c.RejectToClose? ==> !Is(s.x, FlagCloseOffered) || OffersClose(s.x)
    ensures MoveLeft(s, Local(c)) == s
  {
  }

  lemma InitiatorChooses(s: SubPair, c: Choice)
    requires Common(s) && Negotiating(s)
    ensures PairOk(MoveLeft(s, Local(c)))
  {
    if RevokeSent(s) && c.OfferToClose? {
      EarlyCloseOfferMade(s, c.acceptBalance);
    } else {
      NoChoice(s, c);
    }
  }

  lemma ResponderChooses(s: SubPair, c: Choice)
    requires Common(s) && Negotiating(s)
    ensures PairOk(MoveRight(s, Local(c)))
  {
    if OfferHeld(s) && c.AcceptSub? {
      AcceptMade(s);
    } else if OfferHeld(s) && c.RejectSub? {
      RejectMade(s);
    } else if CloseOfferHeld(s) && c.AcceptToClose? {
      CloseAcceptMade(s);
    } else if CloseOfferHeld(s) && c.RejectToClose? {
      CloseRejectMade(s);
    } else if CloseFinalizeSent(s) && c.OfferSub? {
      NextOfferMade(s, c.terms);
    } else if !Allowed(Swap(s), c) {
      assert MoveRight(s, Local(c)) == s;
    } else if ((OfferSent(s) || RejectSent(s)) && c.OfferSub?)
           || ((CloseOfferSent(s) || CloseRejectSent(s)) && c.OfferToClose?) {
      assert false;
    } else {
      NoChoice(Swap(s), c);
      assert MoveRight(s, Local(c)) == s;
    }
  }

  lemma InitiatorReceives(s: SubPair)
    requires Common(s) && Negotiating(s)
    ensures PairOk(MoveLeft(s, Deliver))
  {
    if AcceptSent(s) {
      AcceptDelivered(s);
    } else if RejectSent(s) {
      RejectDelivered(s);
    } else if FinalizeSent(s) {
      FinalizeDelivered(s);
    } else if CloseAcceptSent(s) {
      if s.yx != [] {
        CloseAcceptDelivered(s);
      }
    } else if CloseRejectSent(s) {
      CloseRejectDelivered(s);
    } else if CloseFinalizeSent(s) {
      CloseFinalizeDelivered(s);
    }
  }

  lemma ResponderReceives(s: SubPair)
    requires Common(s) && Negotiating(s)
    ensures PairOk(MoveRight(s, Deliver))
  {
    if OfferSent(s) {
      OfferDelivered(s);
    } else if ConfirmSent(s) {
      ConfirmDelivered(s);
    } else if RevokeSent(s) {
      RevokeDelivered(s);
    } else if CloseOfferSent(s) {
      CloseOfferDelivered(s);
    } else if CloseConfirmSent(s) {
      CloseConfirmDelivered(s);
    }
  }

  lemma SwapKeepsPairOk(s: SubPair)
    requires PairOk(s)
    ensures PairOk(Swap(s))
  {
    assert Swap(Swap(s)) == s;
  }

  lemma LeftMoveOk(s: SubPair, m: Move)
    requires PairOk(s)
    ensures PairOk(MoveLeft(s, m))
  {
    if Negotiating(s) {
      match m
      case Local(c) => InitiatorChooses(s, c);
      case Deliver => InitiatorReceives(s);
    } else if Negotiating(Swap(s)) {
      match m {
        case Local(c) => ResponderChooses(Swap(s), c);
        case Deliver => ResponderReceives(Swap(s));
      }
      SwapKeepsPairOk(MoveRight(Swap(s), m));
    } else if m.Local? {
      var c := m.choice;
      if Idle(s) && c.OfferSub? {
        OfferMade(s, c.terms);
      } else if BothSigned(s) && c.OfferToClose? {
        CloseOfferMade(s, c.acceptBalance);
      } else {
        NoChoice(s, c);
      }
    }
  }
}
