/** Two honest parties of a channel, joined by two message queues. */
module ChannelPair {

  import opened Results
  import opened ChannelTypes
  import opened ChannelUpdates
  import opened ChainMonitoring
  import opened ChannelHandlers
  import opened ChannelParty

  /** Two parties, the messages under way from `x` to `y` and those from `y` to `x`. */
  datatype Pair = Pair(x: Node, y: Node, xy: seq<Message>, yx: seq<Message>)

  datatype Move = Local(action: Action) | Deliver

  function Swap(s: Pair): Pair {
    Pair(s.y, s.x, s.yx, s.xy)
  }

  function Queued(q: seq<Message>, reply: Option<Message>): seq<Message> {
    if reply.None? then q else q + [reply.value]
  }

  /** What these runs leave to the parties: nobody offers a collaborative close, or
      accepts a renewal of their own. */
  predicate Allowed(c: Channel, a: Action) {
    !a.OfferClose? && !(a.AcceptRenew? && c.state.RenewOffered? && c.state.isOffer)
  }

  /** A move of `x`. A message that is refused is lost. */
  function MoveLeft(s: Pair, m: Move): Pair {
    match m
    case Local(a) =>
      if !Allowed(s.x.channel, a) then s
      else
        (match Act(s.x, a)
         case Err(_) => s
         case Ok((x, reply)) => s.(x := x, xy := Queued(s.xy, reply)))
    case Deliver =>
      if s.yx == [] then s
      else
        match Receive(s.x, s.yx[0])
        case Err(_) => s.(yx := s.yx[1..])
        case Ok((x, reply)) => s.(x := x, xy := Queued(s.xy, reply), yx := s.yx[1..])
  }

  function MoveRight(s: Pair, m: Move): Pair {
    Swap(MoveLeft(Swap(s), m))
  }

  datatype Turn = Left(move: Move) | Right(move: Move)

  function Take(s: Pair, t: Turn): Pair {
    match t
    case Left(m) => MoveLeft(s, m)
    case Right(m) => MoveRight(s, m)
  }

  function PlayPair(s: Pair, turns: seq<Turn>): Pair {
    if turns == [] then s else Take(PlayPair(s, turns[..|turns| - 1]), turns[|turns| - 1])
  }

  // ---- What the two have in common ----

  predicate Peers(x: Channel, y: Channel) {
    && y.party == Other(x.party)
    && x.ownCollateral == y.counterCollateral && x.counterCollateral == y.ownCollateral
  }

  /** Every stored secret is that of the peer for its index. */
  predicate ExactSecrets(c: Channel) {
    forall k | k in c.secrets :: c.secrets[k] == Secret(Other(c.party), k)
  }

  ghost predicate Common(s: Pair) {
    && Peers(s.x.channel, s.y.channel)
    && ChannelOk(s.x.channel) && ChannelOk(s.y.channel)
    && ExactSecrets(s.x.channel) && ExactSecrets(s.y.channel)
  }

  /** The same commitment, seen from the two sides. */
  predicate Mirror(a: State, b: State) {
    && IsStable(a) && IsStable(b) && a.tx == b.tx && a.Established? == b.Established?
    && (a.Established? ==> a.contract == b.contract)
    && (a.Settled? ==> a.ownPayout == b.counterPayout && a.counterPayout == b.ownPayout)
  }

  /** Same index, each other's points, same commitment. */
  predicate Aligned(x: Channel, y: Channel) {
    && x.updateIdx == y.updateIdx
    && x.counterPoint == Point(y.party, x.updateIdx) && y.counterPoint == Point(x.party, x.updateIdx)
    && Mirror(Anchor(x), Anchor(y))
  }

  predicate Opposite(a: ClosedContract, b: ClosedContract) {
    a.contract == b.contract && a.pnl + b.pnl == 0
  }

  /** Both sides have closed the same contracts, and what one won the other lost. */
  predicate Balanced(a: seq<ClosedContract>, b: seq<ClosedContract>) {
    |a| == |b| && forall k :: 0 <= k < |a| ==> Opposite(a[k], b[k])
  }

  // ---- Offers ----

  predicate Receiving(c: Channel) {
    c.state.SettledReceived? || (c.state.RenewOffered? && !c.state.isOffer)
  }

  function OfferOf(c: Channel): Message
    requires Offering(c)
  {
    if c.state.SettledOffered? then SettleOffer(c.state.counterPayout, c.state.nextPoint)
    else RenewOffer(c.state.counterPayout, c.state.offerNext, c.state.offered.terms)
  }

  /** What `c` may have under way: an offer it still makes, and a rejection. */
  predicate FlightOk(c: Channel, q: seq<Message>) {
    || q == [] || q == [Reject]
    || (Offering(c) && (q == [OfferOf(c)] || q == [Reject, OfferOf(c)] || q == [OfferOf(c), Reject]))
  }

  /** A rejection from `x` meets an offer of `y` that is no longer under way. */
  predicate RejectionOk(y: Channel, xy: seq<Message>, yx: seq<Message>) {
    Reject in xy ==> Offering(y) && OfferOf(y) !in yx
  }

  /** The received offer is the one the peer makes. */
  predicate Answers(y: State, offer: Message, idx: nat) {
    match y
    case SettledReceived(ownPayout, _, counterNext) => offer == SettleOffer(ownPayout, counterNext)
    case RenewOffered(offered, counterPayout, offerNext, _) =>
      offer == RenewOffer(counterPayout, offerNext, offered.terms) && offered.id == idx
    case _ => false
  }

  predicate ReceivingOk(x: Channel, y: Channel, xy: seq<Message>, yx: seq<Message>) {
    Receiving(y) ==> Offering(x) && xy == [] && yx == [] && Answers(y.state, OfferOf(x), x.updateIdx)
  }

  predicate OfferIdOk(c: Channel) {
    c.state.RenewOffered? ==> c.state.offered.id == c.updateIdx
  }

  predicate OneWay(x: Channel, y: Channel, xy: seq<Message>, yx: seq<Message>) {
    && (IsStable(x.state) || Offering(x) || Receiving(x))
    && OfferIdOk(x) && FlightOk(x, xy) && RejectionOk(y, xy, yx) && ReceivingOk(x, y, xy, yx)
  }

  /** Offers may be made, received, refused and crossed. */
  predicate OfferPhase(s: Pair) {
    && Aligned(s.x.channel, s.y.channel) && Balanced(s.x.closed, s.y.closed)
    && OneWay(s.x.channel, s.y.channel, s.xy, s.yx) && OneWay(s.y.channel, s.x.channel, s.yx, s.xy)
  }

  // ---- An accepted settlement, offered by x ----

  predicate SettleAccepted(s: Pair) {
    var x, y := s.x.channel, s.y.channel;
    && Aligned(x, y) && Balanced(s.x.closed, s.y.closed)
    && x.state.SettledOffered? && y.state.SettledAccepted?
    && x.state.counterPayout == y.state.ownPayout && x.state.counterPayout <= x.Total()
    && x.state.nextPoint == y.state.counterNext
    && y.state.tx == SettleTx(x.party, x.state.nextPoint, y.state.ownNext, x.Total() - x.state.counterPayout,
                              x.state.counterPayout)
    && s.xy == [] && s.yx == [SettleAccept(y.state.ownNext, y.state.ownSig)]
  }

  predicate SettleConfirmed(s: Pair) {
    var x, y := s.x.channel, s.y.channel;
    && Aligned(x, y) && Balanced(s.x.closed, s.y.closed)
    && x.state.SettledConfirmed? && y.state.SettledAccepted?
    && x.state.tx == y.state.tx && x.state.ownNext == y.state.counterNext && x.state.counterNext == y.state.ownNext
    && x.state.ownPayout == y.state.counterPayout && x.state.counterPayout == y.state.ownPayout
    && s.xy == [SettleConfirm(Secret(x.party, x.updateIdx), x.state.ownSig)] && s.yx == []
  }

  /** The contract a party will record when it gets there as well. */
  predicate BalancedAhead(behind: seq<ClosedContract>, next: ClosedContract, ahead: seq<ClosedContract>) {
    ahead != [] && Balanced(behind, ahead[..|ahead| - 1]) && Opposite(next, ahead[|ahead| - 1])
  }

  predicate SettleFinalized(s: Pair) {
    var x, y := s.x.channel, s.y.channel;
    && x.state.SettledConfirmed? && Anchor(x).Established? && Anchor(y).Settled?
    && (IsStable(y.state) || Offering(y)) && OfferIdOk(y)
    && x.updateIdx == y.updateIdx + 1
    && x.counterPoint == Point(y.party, x.updateIdx)
    && y.ownPoint == x.state.counterNext && y.counterPoint == x.state.ownNext
    && Anchor(y).tx == x.state.tx
    && Anchor(y).ownPayout == x.state.counterPayout && Anchor(y).counterPayout == x.state.ownPayout
    && BalancedAhead(s.x.closed, ClosedContractOf(x, Anchor(x).contract, x.state.ownPayout, true), s.y.closed)
    && s.xy == []
    && s.yx == [SettleFinalize(Secret(y.party, x.updateIdx))] + (if Offering(y) then [OfferOf(y)] else [])
  }

  // ---- An accepted renewal, offered by x ----

  predicate RenewalAccepted(s: Pair) {
    var x, y := s.x.channel, s.y.channel;
    && Aligned(x, y) && Balanced(s.x.closed, s.y.closed)
    && x.state.RenewOffered? && x.state.isOffer && y.state.RenewAccepted?
    && y.state.offered.id == x.state.offered.id
    && y.state.ownPayout == x.state.counterPayout && y.state.offerPoint == x.state.offerNext
    && y.state.tx == BufferTxOf(x.state.offered, x.party, x.state.offerNext, y.state.acceptPoint)
    && s.xy == []
    && (s.yx == [RenewAccept(y.state.acceptPoint, ContractSig(y.state.tx, y.party))]
        || (s.yx == [] && x.state.counterPayout > x.Total()))
  }

  predicate RenewalConfirmed(s: Pair) {
    var x, y := s.x.channel, s.y.channel;
    && Aligned(x, y) && Balanced(s.x.closed, s.y.closed)
    && x.state.RenewConfirmed? && y.state.RenewAccepted?
    && y.state.offered.id == x.state.contract
    && x.state.tx == y.state.tx && x.state.offerPoint == y.state.offerPoint
    && x.state.acceptPoint == y.state.acceptPoint
    && x.state.ownPayout + y.state.ownPayout == x.Total()
    && s.xy == [RenewConfirm(x.state.ownSig, ContractSig(x.state.tx, x.party))] && s.yx == []
  }

  predicate RenewalFinalized(s: Pair) {
    var x, y := s.x.channel, s.y.channel;
    && x.state.RenewConfirmed? && y.state.RenewFinalized?
    && x.updateIdx == y.updateIdx
    && x.counterPoint == Point(y.party, x.updateIdx) && y.state.prevOfferPoint == Point(x.party, x.updateIdx)
    && x.state.contract == y.state.contract && x.state.tx == y.state.tx
    && x.state.ownPayout + y.state.ownPayout == x.Total()
    && y.counterPoint == x.state.offerPoint && y.ownPoint == x.state.acceptPoint
    && IsStable(Anchor(x))
    && (if Anchor(x).Established?
        then BalancedAhead(s.x.closed, ClosedContractOf(x, Anchor(x).contract, x.state.ownPayout, true), s.y.closed)
        else Balanced(s.x.closed, s.y.closed))
    && s.xy == [] && s.yx == [RenewFinalize(Secret(y.party, x.updateIdx), y.state.ownSig)]
  }

  predicate RenewalRevoked(s: Pair) {
    var x, y := s.x.channel, s.y.channel;
    && Anchor(x).Established? && (IsStable(x.state) || Offering(x)) && OfferIdOk(x)
    && y.state.RenewFinalized?
    && x.updateIdx + 1 == y.updateIdx
    && y.state.prevOfferPoint == Point(x.party, y.updateIdx)
    && Anchor(x).tx == y.state.tx && Anchor(x).contract == y.state.contract
    && x.counterPoint == y.ownPoint && y.counterPoint == x.ownPoint
    && Balanced(s.x.closed, s.y.closed)
    && s.xy == [RenewRevoke(Secret(x.party, y.updateIdx))] + (if Offering(x) then [OfferOf(x)] else [])
    && s.yx == []
  }

  predicate Agreeing(s: Pair) {
    || SettleAccepted(s) || SettleConfirmed(s) || SettleFinalized(s)
    || RenewalAccepted(s) || RenewalConfirmed(s) || RenewalFinalized(s) || RenewalRevoked(s)
  }

  /** The invariant of the pair. */
  ghost predicate PairOk(s: Pair) {
    Common(s) && (OfferPhase(s) || Agreeing(s) || Agreeing(Swap(s)))
  }

  /** Nothing goes wrong when the next message is delivered to `x`: no check of a
      signature or secret fails. Refused are a settlement offer of more than there is,
      an offer that comes at the wrong time, and the acceptance of a renewal that was
      offered for more than there is, and nothing else. */
  predicate DeliversWell(s: Pair) {
    s.yx != [] && Receive(s.x, s.yx[0]).Err? ==>
      var e, m, c := Receive(s.x, s.yx[0]).error, s.yx[0], s.x.channel;
      match m
      case SettleOffer(counterPayout, _) =>
        if c.state.Established? then e == BadOffer && counterPayout > c.Total() else e == BadState
      case RenewOffer(_, _, _) => e == BadState && !IsStable(c.state)
      case RenewAccept(_, _) => e == Fault && c.state.RenewOffered? && c.state.counterPayout > c.Total()
      case _ => false
  }

  // ---- Moves keep what is common ----

  lemma LocalKeepsCommon(s: Pair, a: Action)
    requires Common(s)
    ensures Common(MoveLeft(s, Local(a)))
  {
    if Allowed(s.x.channel, a) {
      ActOk(s.x, a);
    }
  }

  /** In the middle of an agreement no local action is possible. */
  lemma NothingToDo(n: Node, a: Action)
    requires Allowed(n.channel, a)
    requires var s := n.channel.state;
             s.SettledOffered? || s.SettledAccepted? || s.SettledConfirmed? || (s.RenewOffered? && s.isOffer)
             || s.RenewAccepted? || s.RenewConfirmed? || s.RenewFinalized?
    ensures Act(n, a).Err?
  {
  }

  // ---- Offer phase ----

  lemma OfferPhaseSwap(s: Pair)
    ensures OfferPhase(s) <==> OfferPhase(Swap(s))
    ensures Common(s) ==> Common(Swap(s))
  {
    if Balanced(s.x.closed, s.y.closed) {
      assert Balanced(s.y.closed, s.x.closed);
    }
    if Balanced(s.y.closed, s.x.closed) {
      assert Balanced(s.x.closed, s.y.closed);
    }
  }

  /** What the offer phase needs of the two channels. */
  predicate Sound(s: Pair) {
    Peers(s.x.channel, s.y.channel) && InOrder(s.x.channel) && InOrder(s.y.channel)
  }

  lemma OfferMade(s: Pair, a: Action)
    requires Sound(s) && OfferPhase(s) && (a.OfferSettle? || a.OfferRenew?)
    ensures OfferPhase(MoveLeft(s, Local(a)))
  {
  }

  lemma OfferRejected(s: Pair, a: Action)
    requires Common(s) && OfferPhase(s) && (a.RejectSettle? || a.RejectRenew?)
    ensures OfferPhase(MoveLeft(s, Local(a)))
  {
  }

  lemma SettleOfferAccepted(s: Pair)
    requires Common(s) && OfferPhase(s)
    ensures var after := MoveLeft(s, Local(AcceptSettle)); after == s || SettleAccepted(Swap(after))
  {
  }

  lemma RenewOfferAccepted(s: Pair)
    requires Common(s) && OfferPhase(s)
    ensures var after := MoveLeft(s, Local(AcceptRenew)); after == s || RenewalAccepted(Swap(after))
  {
  }

  predicate OfferNext(s: Pair) {
    s.yx != [] && (s.yx[0].SettleOffer? || s.yx[0].RenewOffer?)
  }

  /** An offer that is refused, */
  lemma OfferRefused(s: Pair)
    requires Sound(s) && OfferPhase(s) && OfferNext(s)
    ensures OfferPhase(s.(yx := s.yx[1..]))
  {
  }

  /** one that crosses an own offer, */
  lemma OfferCrossed(s: Pair)
    requires Sound(s) && OfferPhase(s) && OfferNext(s) && Offering(s.x.channel)
    ensures OfferPhase(s.(xy := s.xy + [Reject], yx := s.yx[1..]))
  {
  }

  /** and one that is taken in. */
  lemma SettleOfferTaken(s: Pair, x: Channel)
    requires Sound(s) && OfferPhase(s) && OfferNext(s) && s.yx[0].SettleOffer?
             && OnSettleOffer(s.x.channel, s.yx[0]) == Ok(x)
    ensures OfferPhase(s.(x := s.x.(channel := x), yx := s.yx[1..]))
  {
  }

  lemma RenewOfferTaken(s: Pair, x: Channel)
    requires Sound(s) && OfferPhase(s) && OfferNext(s) && s.yx[0].RenewOffer?
             && OnRenewOffer(s.x.channel, s.yx[0]) == Ok(x)
    ensures OfferPhase(s.(x := s.x.(channel := x), yx := s.yx[1..]))
  {
  }

  lemma OfferDelivered(s: Pair)
    requires Sound(s) && OfferPhase(s) && OfferNext(s)
    ensures OfferPhase(MoveLeft(s, Deliver)) && DeliversWell(s)
  {
    var m := s.yx[0];
    match Receive(s.x, m)
    case Err(_) => OfferRefused(s);
    case Ok((x, reply)) =>
      if reply.Some? {
        OfferCrossed(s);
      } else if m.SettleOffer? {
        SettleOfferTaken(s, x.channel);
      } else {
        RenewOfferTaken(s, x.channel);
      }
  }

  /** A rejection ends the own offer. */
  lemma OfferWithdrawn(s: Pair, x: Channel)
    requires Sound(s) && OfferPhase(s) && s.yx != [] && s.yx[0] == Reject && OnReject(s.x.channel) == Ok(x)
    ensures OfferPhase(s.(x := s.x.(channel := x), yx := s.yx[1..]))
  {
  }

  lemma RejectTaken(s: Pair)
    requires Sound(s) && OfferPhase(s) && s.yx != [] && s.yx[0] == Reject
    ensures OnReject(s.x.channel).Ok?
  {
  }

  lemma RejectDelivered(s: Pair)
    requires Sound(s) && OfferPhase(s) && s.yx != [] && s.yx[0] == Reject
    ensures OfferPhase(MoveLeft(s, Deliver)) && DeliversWell(s)
  {
    RejectTaken(s);
    OfferWithdrawn(s, OnReject(s.x.channel).value);
  }

  lemma DeliveryKeepsCommon(s: Pair)
    requires Common(s) && s.yx != [] && (s.yx[0].SettleOffer? || s.yx[0].RenewOffer? || s.yx[0].Reject?)
    ensures Common(MoveLeft(s, Deliver))
  {
    OfferOk(s.x, s.yx[0]);
  }

  lemma OfferPhaseDelivered(s: Pair)
    requires Common(s) && OfferPhase(s) && s.yx != []
    ensures Common(MoveLeft(s, Deliver)) && OfferPhase(MoveLeft(s, Deliver)) && DeliversWell(s)
  {
    DeliveryKeepsCommon(s);
    if s.yx[0] == Reject {
      RejectDelivered(s);
    } else {
      OfferDelivered(s);
    }
  }

  // ---- Settlement ----

  lemma AcceptDelivered(s: Pair)
    requires Common(s) && SettleAccepted(s)
    ensures Common(MoveLeft(s, Deliver)) && SettleConfirmed(MoveLeft(s, Deliver)) && DeliversWell(s)
  {
    SettleAcceptOk(s.x, s.yx[0]);
  }

  lemma ConfirmDelivered(s: Pair)
    requires Common(s) && SettleConfirmed(s)
    ensures Common(MoveRight(s, Deliver)) && SettleFinalized(MoveRight(s, Deliver)) && DeliversWell(Swap(s))
  {
    SettleConfirmOk(s.y, s.xy[0]);
  }

  lemma FinalizeKeepsCommon(s: Pair)
    requires Common(s) && SettleFinalized(s)
    ensures Common(MoveLeft(s, Deliver))
  {
    SettleFinalizeOk(s.x, s.yx[0]);
  }

  lemma FinalizeAligns(s: Pair)
    requires Sound(s) && s.x.channel.updateIdx > 0 && SettleFinalized(s)
    ensures OfferPhase(MoveLeft(s, Deliver)) && DeliversWell(s)
  {
  }

  lemma FinalizeDelivered(s: Pair)
    requires Common(s) && SettleFinalized(s)
    ensures Common(MoveLeft(s, Deliver)) && OfferPhase(MoveLeft(s, Deliver)) && DeliversWell(s)
  {
    FinalizeKeepsCommon(s);
    FinalizeAligns(s);
  }

  lemma OfferWhileFinalizing(s: Pair, a: Action)
    requires Common(s) && SettleFinalized(s)
    ensures SettleFinalized(MoveRight(s, Local(a)))
  {
  }

  // ---- Renewal ----

  lemma RenewAcceptDelivered(s: Pair)
    requires Common(s) && RenewalAccepted(s) && s.yx != []
    ensures Common(MoveLeft(s, Deliver)) && DeliversWell(s)
    ensures RenewalConfirmed(MoveLeft(s, Deliver)) || RenewalAccepted(MoveLeft(s, Deliver))
  {
    RenewAcceptOk(s.x, s.yx[0]);
  }

  lemma RenewConfirmDelivered(s: Pair)
    requires Common(s) && RenewalConfirmed(s)
    ensures Common(MoveRight(s, Deliver)) && RenewalFinalized(MoveRight(s, Deliver)) && DeliversWell(Swap(s))
  {
    RenewConfirmOk(s.y, s.xy[0]);
  }

  lemma RenewFinalizeKeepsCommon(s: Pair)
    requires Common(s) && RenewalFinalized(s)
    ensures Common(MoveLeft(s, Deliver))
  {
    RenewFinalizeOk(s.x, s.yx[0]);
  }

  lemma RenewFinalizeRevokes(s: Pair)
    requires Sound(s) && RenewalFinalized(s)
    ensures RenewalRevoked(MoveLeft(s, Deliver)) && DeliversWell(s)
  {
  }

  lemma RenewFinalizeDelivered(s: Pair)
    requires Common(s) && RenewalFinalized(s)
    ensures Common(MoveLeft(s, Deliver)) && RenewalRevoked(MoveLeft(s, Deliver)) && DeliversWell(s)
  {
    RenewFinalizeKeepsCommon(s);
    RenewFinalizeRevokes(s);
  }

  lemma RenewRevokeDelivered(s: Pair)
    requires Common(s) && RenewalRevoked(s)
    ensures Common(MoveRight(s, Deliver)) && OfferPhase(MoveRight(s, Deliver)) && DeliversWell(Swap(s))
  {
    RenewRevokeOk(s.y, s.xy[0]);
  }

  lemma OfferWhileRevoking(s: Pair, a: Action)
    requires Common(s) && RenewalRevoked(s)
    ensures RenewalRevoked(MoveLeft(s, Local(a)))
  {
  }

  // ---- Every move keeps the invariant ----

  lemma SwapKeepsPairOk(s: Pair)
    requires PairOk(s)
    ensures PairOk(Swap(s))
  {
    OfferPhaseSwap(s);
    assert Swap(Swap(s)) == s;
  }

  lemma OfferPhaseMove(s: Pair, m: Move)
    requires Common(s) && OfferPhase(s)
    ensures PairOk(MoveLeft(s, m)) && DeliversWell(s)
  {
    if s.yx != [] {
      OfferPhaseDelivered(s);
    }
    match m
    case Local(a) =>
      LocalKeepsCommon(s, a);
      if a.OfferSettle? || a.OfferRenew? {
        OfferMade(s, a);
      } else if a.RejectSettle? || a.RejectRenew? {
        OfferRejected(s, a);
      } else if a.AcceptSettle? {
        SettleOfferAccepted(s);
      } else if a.AcceptRenew? {
        RenewOfferAccepted(s);
      }
    case Deliver =>
  }

  /** The party that offered moves. */
  lemma OffererMoves(s: Pair, m: Move)
    requires Common(s) && Agreeing(s)
    ensures PairOk(MoveLeft(s, m)) && DeliversWell(s)
  {
    if SettleAccepted(s) {
      AcceptDelivered(s);
    } else if SettleFinalized(s) {
      FinalizeDelivered(s);
    } else if RenewalAccepted(s) && s.yx != [] {
      RenewAcceptDelivered(s);
    } else if RenewalFinalized(s) {
      RenewFinalizeDelivered(s);
    }
    if m.Local? {
      LocalKeepsCommon(s, m.action);
      if RenewalRevoked(s) {
        OfferWhileRevoking(s, m.action);
      } else if Allowed(s.x.channel, m.action) {
        NothingToDo(s.x, m.action);
      }
    }
  }

  /** The party that accepted moves. */
  lemma AccepterMoves(s: Pair, m: Move)
    requires Common(s) && Agreeing(s)
    ensures PairOk(MoveRight(s, m)) && DeliversWell(Swap(s))
  {
    if SettleConfirmed(s) {
      ConfirmDelivered(s);
    } else if RenewalConfirmed(s) {
      RenewConfirmDelivered(s);
    } else if RenewalRevoked(s) {
      RenewRevokeDelivered(s);
    }
    if m.Local? {
      OfferPhaseSwap(s);
      LocalKeepsCommon(Swap(s), m.action);
      OfferPhaseSwap(MoveLeft(Swap(s), m));
      if SettleFinalized(s) {
        OfferWhileFinalizing(s, m.action);
      } else if Allowed(s.y.channel, m.action) {
        NothingToDo(s.y, m.action);
      }
    }
  }

  lemma LeftMoveOk(s: Pair, m: Move)
    requires PairOk(s)
    ensures PairOk(MoveLeft(s, m)) && DeliversWell(s)
  {
    if OfferPhase(s) {
      OfferPhaseMove(s, m);
    } else if Agreeing(s) {
      OffererMoves(s, m);
    } else {
      OfferPhaseSwap(s);
      AccepterMoves(Swap(s), m);
      SwapKeepsPairOk(MoveRight(Swap(s), m));
    }
  }

  lemma TakeOk(s: Pair, t: Turn)
    requires PairOk(s)
    ensures PairOk(Take(s, t)) && DeliversWell(s) && DeliversWell(Swap(s))
  {
    var m := t.move;
    LeftMoveOk(s, m);
    SwapKeepsPairOk(s);
    LeftMoveOk(Swap(s), m);
    SwapKeepsPairOk(MoveLeft(Swap(s), m));
  }

  /** Two parties that have just set up a channel with each other. */
  ghost predicate StartsTogether(s: Pair) {
    var x, y := s.x.channel, s.y.channel;
    && Peers(x, y) && s.xy == [] && s.yx == [] && s.x.closed == [] && s.y.closed == []
    && x.updateIdx == INITIAL_UPDATE_NUMBER && x.secrets == map[] && x.state.Established?
    && y.updateIdx == INITIAL_UPDATE_NUMBER && y.secrets == map[] && y.state.Established?
    && x.ownPoint == y.counterPoint == Point(x.party, INITIAL_UPDATE_NUMBER)
    && y.ownPoint == x.counterPoint == Point(y.party, INITIAL_UPDATE_NUMBER)
    && Usable(x, x.state) && Usable(y, y.state)
    && x.state.tx == y.state.tx && x.state.contract == y.state.contract
  }

  lemma {:induction false} PlayPairOk(s: Pair, turns: seq<Turn>)
    requires StartsTogether(s)
    ensures PairOk(PlayPair(s, turns))
  {
    if turns != [] {
      PlayPairOk(s, turns[..|turns| - 1]);
      TakeOk(PlayPair(s, turns[..|turns| - 1]), turns[|turns| - 1]);
    }
  }

  // ---- What it means ----

  /** In every reachable state the two indexes differ by at most one, and when both
      are Established or Settled they are equal, each knows the other's point, and
      both hold the same commitment. */
  lemma {:induction false} PartiesAgree(s: Pair, turns: seq<Turn>)
    requires StartsTogether(s)
    ensures var r := PlayPair(s, turns);
            var x, y := r.x.channel, r.y.channel;
            && -1 <= x.updateIdx - y.updateIdx <= 1
            && (IsStable(x.state) && IsStable(y.state) ==>
                  && x.updateIdx == y.updateIdx
                  && x.counterPoint == y.ownPoint && y.counterPoint == x.ownPoint
                  && Mirror(x.state, y.state)
                  && x.state.counterSig == y.state.ownSig && y.state.counterSig == x.state.ownSig)
  {
    PlayPairOk(s, turns);
  }

  /** In every reachable state whatever message is next is handled without a
      failed check. */
  lemma {:induction false} NoHonestCheckFails(s: Pair, turns: seq<Turn>)
    requires StartsTogether(s)
    ensures DeliversWell(PlayPair(s, turns)) && DeliversWell(Swap(PlayPair(s, turns)))
  {
    PlayPairOk(s, turns);
    TakeOk(PlayPair(s, turns), Left(Deliver));
  }

  /** In every reachable state each party has the peer's secrets for exactly the
      indexes above its own, and each is the preimage of the peer's point there. */
  lemma {:induction false} SecretStoresAreExact(s: Pair, turns: seq<Turn>)
    requires StartsTogether(s)
    ensures var c := PlayPair(s, turns).x.channel;
            && (forall k: nat :: k in c.secrets <==> c.updateIdx < k <= INITIAL_UPDATE_NUMBER)
            && (forall k | k in c.secrets :: PointOf(c.secrets[k]) == Point(Other(c.party), k))
    ensures var c := PlayPair(s, turns).y.channel;
            && (forall k: nat :: k in c.secrets <==> c.updateIdx < k <= INITIAL_UPDATE_NUMBER)
            && (forall k | k in c.secrets :: PointOf(c.secrets[k]) == Point(Other(c.party), k))
  {
    PlayPairOk(s, turns);
  }

  predicate ClosedAlike(s: Pair, k: nat) {
    && -1 <= |s.x.closed| - |s.y.closed| <= 1
    && (k < |s.x.closed| && k < |s.y.closed| ==> Opposite(s.x.closed[k], s.y.closed[k]))
  }

  lemma ClosedPairUp(s: Pair, k: nat)
    requires OfferPhase(s) || Agreeing(s)
    ensures ClosedAlike(s, k)
  {
  }

  /** In every reachable state the closed contracts of the two sides pair up, one
      side being ahead by at most one, and what one side won the other lost. */
  lemma {:induction false} ProfitsSumToZero(s: Pair, turns: seq<Turn>, k: nat)
    requires StartsTogether(s)
    ensures ClosedAlike(PlayPair(s, turns), k)
  {
    PlayPairOk(s, turns);
    var r := PlayPair(s, turns);
    if OfferPhase(r) || Agreeing(r) {
      ClosedPairUp(r, k);
    } else {
      ClosedPairUp(Swap(r), k);
    }
  }

  // ---- Offers that come to nothing ----

  ghost predicate Quiet(s: Pair) {
    Common(s) && OfferPhase(s) && IsStable(s.x.channel.state) && IsStable(s.y.channel.state) && s.xy == [] && s.yx == []
  }

  /** The party is back in the state that it could roll back to. */
  predicate BackFrom(before: Channel, after: Channel) {
    after.state == Anchor(before) && after.rollBack == None && after.updateIdx == before.updateIdx
  }

  function Rejection(c: Channel): Action {
    if c.state.SettledReceived? then RejectSettle else RejectRenew
  }

  lemma RejectionMade(s: Pair) returns (r: Pair)
    requires Common(s) && OfferPhase(s) && Receiving(s.y.channel)
    ensures r == MoveRight(s, Local(Rejection(s.y.channel))) && Common(r) && OfferPhase(r)
    ensures r.x == s.x && Offering(r.x.channel) && r.xy == [] && r.yx == [Reject] && BackFrom(s.y.channel, r.y.channel)
  {
    r := MoveRight(s, Local(Rejection(s.y.channel)));
    OfferPhaseSwap(s);
    LocalKeepsCommon(Swap(s), Rejection(s.y.channel));
    OfferRejected(Swap(s), Rejection(s.y.channel));
    OfferPhaseSwap(Swap(r));
  }

  lemma RejectionReceived(s: Pair) returns (r: Pair)
    requires Common(s) && OfferPhase(s) && s.yx != [] && s.yx[0] == Reject
    ensures r == MoveLeft(s, Deliver) && Common(r) && OfferPhase(r) && r.y == s.y && r.xy == s.xy && r.yx == s.yx[1..]
    ensures BackFrom(s.x.channel, r.x.channel)
  {
    r := MoveLeft(s, Deliver);
    OfferPhaseDelivered(s);
    RejectTaken(s);
  }

  /** An offer that is rejected leaves both parties as they were before it. */
  lemma RejectionCompletes(s: Pair) returns (rejected: Pair, r: Pair)
    requires Common(s) && OfferPhase(s) && Receiving(s.y.channel)
    ensures rejected == MoveRight(s, Local(Rejection(s.y.channel))) && r == MoveLeft(rejected, Deliver)
    ensures Quiet(r) && BackFrom(s.x.channel, r.x.channel) && BackFrom(s.y.channel, r.y.channel)
  {
    rejected := RejectionMade(s);
    r := RejectionReceived(rejected);
  }

  /** Both parties have made an offer of the same kind, and neither has arrived. */
  predicate Crossing(s: Pair) {
    && Offering(s.x.channel) && Offering(s.y.channel)
    && s.x.channel.state.SettledOffered? == s.y.channel.state.SettledOffered?
    && s.xy == [OfferOf(s.x.channel)] && s.yx == [OfferOf(s.y.channel)]
  }

  lemma CrossingOffersMet(s: Pair) returns (s1: Pair, s2: Pair)
    requires Common(s) && OfferPhase(s) && Crossing(s)
    ensures s1 == MoveLeft(s, Deliver) && s2 == MoveRight(s1, Deliver) && Common(s2) && OfferPhase(s2)
    ensures s2.x == s.x && s2.y == s.y && s2.xy == [Reject] && s2.yx == [Reject]
  {
    s1 := MoveLeft(s, Deliver);
    OfferPhaseDelivered(s);
    assert s1.x == s.x && s1.xy == [OfferOf(s.x.channel), Reject] && s1.yx == [];
    OfferPhaseSwap(s1);
    s2 := MoveRight(s1, Deliver);
    OfferPhaseDelivered(Swap(s1));
    OfferPhaseSwap(Swap(s2));
  }

  /** Offers of the same kind that cross reject each other. */
  lemma CrossingOffersCancel(s: Pair) returns (s1: Pair, s2: Pair, s3: Pair, r: Pair)
    requires Common(s) && OfferPhase(s) && Crossing(s)
    ensures s1 == MoveLeft(s, Deliver) && s2 == MoveRight(s1, Deliver)
    ensures s3 == MoveLeft(s2, Deliver) && r == MoveRight(s3, Deliver)
    ensures Quiet(r) && BackFrom(s.x.channel, r.x.channel) && BackFrom(s.y.channel, r.y.channel)
  {
    s1, s2 := CrossingOffersMet(s);
    s3 := RejectionReceived(s2);
    OfferPhaseSwap(s3);
    var swapped := RejectionReceived(Swap(s3));
    r := Swap(swapped);
    OfferPhaseSwap(swapped);
  }

  /** A renewal can be offered exactly for what the parties have: from a contract for the
      whole of the channel, and after a settlement with each party putting in what the
      settle transaction pays it. */
  lemma RenewalFits(c: Channel, input: ContractInput, counterPayout: nat)
    requires InOrder(c) && IsStable(c.state) && c.updateIdx > 0
    ensures RenewOfferOf(c, input, counterPayout).Ok? <==>
            if c.state.Established? then input.offerCollateral + input.acceptCollateral == c.Total()
            else input.offerCollateral == PaidTo(c.state.tx, c.party)
                 && input.acceptCollateral == PaidTo(c.state.tx, Other(c.party))
  {
  }

  // ---- Agreements are carried through ----

  /** What a settlement has in view. */
  predicate SettlesAt(c: Channel, idx: nat, offererPayout: int) {
    && c.updateIdx + 1 == idx && c.state.Settled? && c.state.ownPayout == offererPayout
    && c.state.tx.SettleTx? && PaidTo(c.state.tx, c.party) == offererPayout && c.rollBack.None?
  }

  /** One more contract has been recorded, closed with this result. */
  predicate Records(before: Node, after: Node, contract: nat, pnl: int) {
    |after.closed| == |before.closed| + 1 && after.closed[|before.closed|] == ClosedContract(contract, pnl)
  }

  lemma RecordsBetween(a: Node, b: Node, c: Node, d: Node, contract: nat, contract': nat, pnl: int, pnl': int)
    requires b.closed == a.closed && Records(b, c, contract, pnl) && d.closed == c.closed
    requires contract' == contract && pnl' == pnl
    ensures Records(a, d, contract', pnl')
  {
  }

  predicate SameParties(s: Pair, r: Pair) {
    && r.x.channel.party == s.x.channel.party && r.x.channel.ownCollateral == s.x.channel.ownCollateral
    && r.x.channel.counterCollateral == s.x.channel.counterCollateral
    && r.y.channel.party == s.y.channel.party && r.y.channel.ownCollateral == s.y.channel.ownCollateral
    && r.y.channel.counterCollateral == s.y.channel.counterCollateral
  }

  lemma SettlementOffered(s: Pair, counterPayout: nat) returns (s1: Pair, s2: Pair)
    requires Quiet(s) && s.x.channel.state.Established? && s.x.channel.updateIdx > 0
             && counterPayout <= s.x.channel.Total()
    ensures s1 == MoveLeft(s, Local(OfferSettle(counterPayout))) && s2 == MoveRight(s1, Deliver)
    ensures Common(s2) && OfferPhase(s2) && s2.y.channel.state.SettledReceived?
    ensures s2.x.channel.updateIdx == s.x.channel.updateIdx && SameParties(s, s2)
    ensures s2.x.channel.state.SettledOffered? && s2.x.channel.state.counterPayout == counterPayout
    ensures s2.x.closed == s.x.closed && s2.y.closed == s.y.closed && Anchor(s2.x.channel) == Anchor(s.x.channel)
  {
    s1 := MoveLeft(s, Local(OfferSettle(counterPayout)));
    LocalKeepsCommon(s, OfferSettle(counterPayout));
    OfferMade(s, OfferSettle(counterPayout));
    OfferPhaseSwap(s1);
    s2 := MoveRight(s1, Deliver);
    OfferPhaseDelivered(Swap(s1));
    OfferPhaseSwap(Swap(s2));
  }

  lemma SettlementTaken(s: Pair) returns (s1: Pair)
    requires Common(s) && OfferPhase(s) && s.y.channel.state.SettledReceived? && s.x.channel.updateIdx > 0
    ensures s1 == MoveRight(s, Local(AcceptSettle))
    ensures Common(s1) && SettleAccepted(s1) && s1.x == s.x && s1.y.closed == s.y.closed && SameParties(s, s1)
  {
    s1 := MoveRight(s, Local(AcceptSettle));
    OfferPhaseSwap(s);
    LocalKeepsCommon(Swap(s), AcceptSettle);
    SettleOfferAccepted(Swap(s));
    OfferPhaseSwap(Swap(s1));
  }

  lemma AcceptOutcome(s: Pair)
    requires Common(s) && SettleAccepted(s)
    ensures var r := MoveLeft(s, Deliver);
            && r.x.channel.state.SettledConfirmed? && r.x.channel.updateIdx == s.x.channel.updateIdx
            && r.x.channel.state.ownPayout == s.x.channel.Total() - s.x.channel.state.counterPayout
            && r.x.closed == s.x.closed && r.y == s.y && Anchor(r.x.channel) == Anchor(s.x.channel) && SameParties(s, r)
  {
  }

  lemma ConfirmOutcome(s: Pair)
    requires Common(s) && SettleConfirmed(s)
    ensures var r := MoveRight(s, Deliver);
            && r.x == s.x && IsStable(r.y.channel.state) && r.y.channel.rollBack.None? && SameParties(s, r)
            && Records(s.y, r.y, Anchor(s.x.channel).contract,
                       s.x.channel.Total() - s.x.channel.state.ownPayout - s.y.channel.ownCollateral)
  {
  }

  lemma FinalizeOutcome(s: Pair)
    requires Common(s) && SettleFinalized(s) && IsStable(s.y.channel.state)
    ensures var r := MoveLeft(s, Deliver);
            && r.y == s.y && r.xy == [] && r.yx == [] && SameParties(s, r)
            && SettlesAt(r.x.channel, s.x.channel.updateIdx, s.x.channel.state.ownPayout)
            && Records(s.x, r.x, Anchor(s.x.channel).contract,
                       s.x.channel.state.ownPayout - s.x.channel.ownCollateral)
  {
  }

  lemma SettlementCarriedThrough(s: Pair) returns (s1: Pair, s2: Pair, s3: Pair)
    requires Common(s) && SettleAccepted(s)
    ensures s1 == MoveLeft(s, Deliver) && s2 == MoveRight(s1, Deliver) && s3 == MoveLeft(s2, Deliver)
    ensures Quiet(s3) && s3.y.channel.rollBack.None?
    ensures SettlesAt(s3.x.channel, s.x.channel.updateIdx, s.x.channel.Total() - s.x.channel.state.counterPayout)
    ensures var contract, counterPayout := Anchor(s.x.channel).contract, s.x.channel.state.counterPayout;
            && Records(s.x, s3.x, contract, s.x.channel.Total() - counterPayout - s.x.channel.ownCollateral)
            && Records(s.y, s3.y, contract, counterPayout - s.y.channel.ownCollateral)
  {
    s1 := MoveLeft(s, Deliver);
    AcceptDelivered(s);
    AcceptOutcome(s);
    s2 := MoveRight(s1, Deliver);
    ConfirmDelivered(s1);
    ConfirmOutcome(s1);
    s3 := MoveLeft(s2, Deliver);
    FinalizeDelivered(s2);
    FinalizeOutcome(s2);
    var contract, counterPayout := Anchor(s.x.channel).contract, s.x.channel.state.counterPayout;
    RecordsBetween(s.x, s2.x, s3.x, s3.x, Anchor(s2.x.channel).contract, contract,
                   s2.x.channel.state.ownPayout - s2.x.channel.ownCollateral,
                   s.x.channel.Total() - counterPayout - s.x.channel.ownCollateral);
    RecordsBetween(s.y, s1.y, s2.y, s3.y, Anchor(s1.x.channel).contract, contract,
                   s1.x.channel.Total() - s1.x.channel.state.ownPayout - s1.y.channel.ownCollateral,
                   counterPayout - s.y.channel.ownCollateral);
  }

  /** From a quiet state, a settlement that is offered and accepted is carried through
      by the messages that follow. Each party is paid what was agreed, records that
      less its collateral as its result, and is left with no state to roll back to. */
  lemma SettlementCompletes(s: Pair, counterPayout: nat) returns (offered: Pair, accepted: Pair, settled: Pair)
    requires Quiet(s) && s.x.channel.state.Established? && s.x.channel.updateIdx > 0
             && counterPayout <= s.x.channel.Total()
    ensures offered == MoveRight(MoveLeft(s, Local(OfferSettle(counterPayout))), Deliver)
    ensures accepted == MoveRight(offered, Local(AcceptSettle))
    ensures settled == MoveLeft(MoveRight(MoveLeft(accepted, Deliver), Deliver), Deliver)
    ensures Quiet(settled) && SettlesAt(settled.x.channel, s.x.channel.updateIdx, s.x.channel.Total() - counterPayout)
    ensures settled.y.channel.rollBack.None?
    ensures var contract := s.x.channel.state.contract;
            && Records(s.x, settled.x, contract, s.x.channel.Total() - counterPayout - s.x.channel.ownCollateral)
            && Records(s.y, settled.y, contract, counterPayout - s.y.channel.ownCollateral)
  {
    var s1, s2, s3;
    s1, offered := SettlementOffered(s, counterPayout);
    accepted := SettlementTaken(offered);
    s2, s3, settled := SettlementCarriedThrough(accepted);
    var total := accepted.x.channel.Total();
    RecordsBetween(s.x, accepted.x, settled.x, settled.x, Anchor(accepted.x.channel).contract,
                   s.x.channel.state.contract,
                   total - counterPayout - accepted.x.channel.ownCollateral,
                   s.x.channel.Total() - counterPayout - s.x.channel.ownCollateral);
    RecordsBetween(s.y, accepted.y, settled.y, settled.y, Anchor(accepted.x.channel).contract,
                   s.x.channel.state.contract,
                   counterPayout - accepted.y.channel.ownCollateral, counterPayout - s.y.channel.ownCollateral);
  }

  predicate RenewedAt(c: Channel, idx: nat, terms: nat) {
    && c.updateIdx + 1 == idx && c.state.Established? && c.state.tx.BufferTx? && c.state.tx.terms == terms
    && c.rollBack.None?
  }

  lemma RenewalOffered(s: Pair, input: ContractInput, counterPayout: nat) returns (s1: Pair, s2: Pair)
    requires Quiet(s) && CheckInput(s.x.channel, input).Ok? && s.x.channel.updateIdx > 0
    ensures s1 == MoveLeft(s, Local(OfferRenew(input, counterPayout))) && s2 == MoveRight(s1, Deliver)
    ensures Common(s2) && OfferPhase(s2) && s2.y.channel.state.RenewOffered? && !s2.y.channel.state.isOffer
    ensures s2.x.channel.updateIdx == s.x.channel.updateIdx && SameParties(s, s2)
    ensures s2.x.channel.state.RenewOffered? && s2.x.channel.state.counterPayout == counterPayout
    ensures s2.x.channel.state.offered.terms == input.terms
    ensures s2.x.closed == s.x.closed && s2.y.closed == s.y.closed && Anchor(s2.x.channel) == Anchor(s.x.channel)
  {
    s1 := MoveLeft(s, Local(OfferRenew(input, counterPayout)));
    LocalKeepsCommon(s, OfferRenew(input, counterPayout));
    OfferMade(s, OfferRenew(input, counterPayout));
    OfferPhaseSwap(s1);
    s2 := MoveRight(s1, Deliver);
    OfferPhaseDelivered(Swap(s1));
    OfferPhaseSwap(Swap(s2));
  }

  lemma RenewalTaken(s: Pair) returns (s1: Pair)
    requires Common(s) && OfferPhase(s) && s.x.channel.updateIdx > 0
    requires s.y.channel.state.RenewOffered? && !s.y.channel.state.isOffer
    ensures s1 == MoveRight(s, Local(AcceptRenew))
    ensures Common(s1) && RenewalAccepted(s1) && s1.x == s.x && s1.yx != []
    ensures s1.y.closed == s.y.closed && SameParties(s, s1)
  {
    s1 := MoveRight(s, Local(AcceptRenew));
    OfferPhaseSwap(s);
    LocalKeepsCommon(Swap(s), AcceptRenew);
    RenewOfferAccepted(Swap(s));
    OfferPhaseSwap(Swap(s1));
  }

  /** A renewal closes the contract that it replaces, if there is one. */
  predicate ClosesFormer(before: Node, after: Node, former: State, payout: int) {
    if former.Established? then Records(before, after, former.contract, payout - before.channel.ownCollateral)
    else after.closed == before.closed
  }

  lemma ClosesBetween(a: Node, b: Node, c: Node, d: Node, former: State, former': State, payout: int, payout': int)
    requires b.closed == a.closed && ClosesFormer(b, c, former, payout) && d.closed == c.closed
    requires former' == former && payout' == payout && a.channel.ownCollateral == b.channel.ownCollateral
    ensures ClosesFormer(a, d, former', payout')
  {
  }

  lemma RenewAcceptOutcome(s: Pair)
    requires Common(s) && RenewalAccepted(s) && s.yx != [] && s.x.channel.state.counterPayout <= s.x.channel.Total()
    ensures var r := MoveLeft(s, Deliver);
            && RenewalConfirmed(r) && r.x.channel.updateIdx == s.x.channel.updateIdx
            && r.x.channel.state.tx.terms == s.x.channel.state.offered.terms
            && r.x.channel.state.ownPayout == s.x.channel.Total() - s.x.channel.state.counterPayout
            && r.x.closed == s.x.closed && r.y == s.y && Anchor(r.x.channel) == Anchor(s.x.channel) && SameParties(s, r)
  {
  }

  lemma RenewConfirmOutcome(s: Pair)
    requires Common(s) && RenewalConfirmed(s)
    ensures var r := MoveRight(s, Deliver);
            && r.x == s.x && SameParties(s, r)
            && ClosesFormer(s.y, r.y, Anchor(s.x.channel), s.x.channel.Total() - s.x.channel.state.ownPayout)
  {
  }

  lemma RenewFinalizeOutcome(s: Pair)
    requires Common(s) && RenewalFinalized(s)
    ensures var r := MoveLeft(s, Deliver);
            && RenewedAt(r.x.channel, s.x.channel.updateIdx, s.x.channel.state.tx.terms)
            && r.y == s.y && SameParties(s, r)
            && ClosesFormer(s.x, r.x, Anchor(s.x.channel), s.x.channel.state.ownPayout)
  {
  }

  lemma RenewRevokeOutcome(s: Pair)
    requires Common(s) && RenewalRevoked(s) && IsStable(s.x.channel.state)
    ensures var r := MoveRight(s, Deliver);
            && r.x == s.x && IsStable(r.y.channel.state) && r.xy == [] && r.yx == [] && r.y.channel.rollBack.Some?
            && r.y.closed == s.y.closed
  {
  }

  lemma RenewalCarriedThrough(s: Pair) returns (s1: Pair, s2: Pair, s3: Pair, s4: Pair)
    requires Common(s) && RenewalAccepted(s) && s.yx != [] && s.x.channel.state.counterPayout <= s.x.channel.Total()
    ensures s1 == MoveLeft(s, Deliver) && s2 == MoveRight(s1, Deliver)
    ensures s3 == MoveLeft(s2, Deliver) && s4 == MoveRight(s3, Deliver)
    ensures Quiet(s4) && RenewedAt(s4.x.channel, s.x.channel.updateIdx, s.x.channel.state.offered.terms)
    ensures s4.y.channel.rollBack.Some?
    ensures ClosesFormer(s.x, s4.x, Anchor(s.x.channel), s.x.channel.Total() - s.x.channel.state.counterPayout)
    ensures ClosesFormer(s.y, s4.y, Anchor(s.x.channel), s.x.channel.state.counterPayout)
  {
    s1 := MoveLeft(s, Deliver);
    RenewAcceptDelivered(s);
    RenewAcceptOutcome(s);
    s2 := MoveRight(s1, Deliver);
    RenewConfirmDelivered(s1);
    RenewConfirmOutcome(s1);
    s3 := MoveLeft(s2, Deliver);
    RenewFinalizeDelivered(s2);
    RenewFinalizeOutcome(s2);
    s4 := MoveRight(s3, Deliver);
    RenewRevokeDelivered(s3);
    RenewRevokeOutcome(s3);
    var former, counterPayout := Anchor(s.x.channel), s.x.channel.state.counterPayout;
    ClosesBetween(s.x, s2.x, s3.x, s4.x, Anchor(s2.x.channel), former, s2.x.channel.state.ownPayout,
                  s.x.channel.Total() - counterPayout);
    ClosesBetween(s.y, s1.y, s2.y, s4.y, Anchor(s1.x.channel), former,
                  s1.x.channel.Total() - s1.x.channel.state.ownPayout, counterPayout);
  }

  /** From a quiet state, a renewal that is offered and accepted is carried through
      by the messages that follow. If it replaces a contract, each party records what was
      agreed less its collateral as its result. The accepting party, and it alone, is left
      with a state to roll back to. */
  lemma RenewalCompletes(s: Pair, input: ContractInput, counterPayout: nat)
    returns (offered: Pair, accepted: Pair, renewed: Pair)
    requires Quiet(s) && CheckInput(s.x.channel, input).Ok? && s.x.channel.updateIdx > 0
    requires counterPayout <= s.x.channel.Total()
    ensures offered == MoveRight(MoveLeft(s, Local(OfferRenew(input, counterPayout))), Deliver)
    ensures accepted == MoveRight(offered, Local(AcceptRenew))
    ensures renewed == MoveRight(MoveLeft(MoveRight(MoveLeft(accepted, Deliver), Deliver), Deliver), Deliver)
    ensures Quiet(renewed) && RenewedAt(renewed.x.channel, s.x.channel.updateIdx, input.terms)
    ensures renewed.y.channel.rollBack.Some?
    ensures ClosesFormer(s.x, renewed.x, s.x.channel.state, s.x.channel.Total() - counterPayout)
    ensures ClosesFormer(s.y, renewed.y, s.x.channel.state, counterPayout)
  {
    var s1, s2, s3, s4;
    s1, offered := RenewalOffered(s, input, counterPayout);
    accepted := RenewalTaken(offered);
    s2, s3, s4, renewed := RenewalCarriedThrough(accepted);
    var former := Anchor(accepted.x.channel);
    ClosesBetween(s.x, accepted.x, renewed.x, renewed.x, former, s.x.channel.state,
                  accepted.x.channel.Total() - counterPayout, s.x.channel.Total() - counterPayout);
    ClosesBetween(s.y, accepted.y, renewed.y, renewed.y, former, s.x.channel.state, counterPayout, counterPayout);
  }

  /** What the record of the contract of an Established state says, or none. */
  predicate RecordsResult(records: seq<ClosedContract>, former: State, pnl: int) {
    if former.Established? then records == [ClosedContract(former.contract, pnl)] else records == []
  }

  /** When a collaborative close is offered and accepted in a quiet state, both sides hold
      a transaction that pays the accepting party what was offered and the other the rest,
      and each records what it is paid, less its collateral, as the result of the contract
      in the channel. The offer is refused by a party that was the last to finish a
      renewal, because the state to roll back to is still there. */
  lemma CollaborativeCloseSumsToZero(s: Pair, counterPayout: nat)
    requires Quiet(s) && counterPayout <= s.x.channel.Total()
    ensures var x, y := s.x.channel, s.y.channel;
            var offered := CloseOfferOf(x, counterPayout);
            var received := OnCloseOffer(y, CloseOffer(counterPayout));
            && offered.Ok? && offered.value.1 == CloseOffer(counterPayout)
            && (received.Ok? <==> y.rollBack.None?)
            && (received.Ok? ==>
                  && ClosedByOfferer(offered.value.0).Ok? && ClosedByAccepter(received.value).Ok?
                  && ClosedByAccepter(offered.value.0) == Err(BadState)
                  && var tx := offered.value.0.state.tx;
                  && tx == received.value.state.tx && tx.CloseTx?
                  && PaidTo(tx, x.party) == x.Total() - counterPayout && PaidTo(tx, y.party) == counterPayout
                  && RecordsResult(ClosedByOfferer(offered.value.0).value, x.state,
                                   PaidTo(tx, x.party) - x.ownCollateral)
                  && RecordsResult(ClosedByAccepter(received.value).value, x.state,
                                   PaidTo(tx, y.party) - y.ownCollateral)
                  && Balanced(ClosedByOfferer(offered.value.0).value, ClosedByAccepter(received.value).value))
  {
  }
}
