/** One party of a channel: its runs, the order its channel is in, and the two steps
    that alone can take it out of order. */
module ChannelParty {

  import opened Results
  import opened ChannelTypes
  import opened ChannelUpdates
  import opened ChainMonitoring
  import opened ChannelHandlers

  // ---- Runs ----

  datatype Event = Do(action: Action) | Get(message: Message)

  datatype Superseded = Superseded(tx: Tx, idx: nat)

  /** A party with the transactions it could once have published and the indexes
      whose secrets it has revealed. */
  datatype Run = Run(node: Node, superseded: seq<Superseded>, revealed: set<nat>)

  predicate IsStable(s: State) {
    s.Established? || s.Settled?
  }

  predicate IsPublishable(s: State) {
    IsStable(s) || s.RenewFinalized?
  }

  /** The state whose transaction is published when the channel is closed by force. */
  function Anchor(c: Channel): State {
    if IsPublishable(c.state) || c.rollBack.None? then c.state else c.rollBack.value
  }

  function Commitment(c: Channel): Option<Tx> {
    if IsPublishable(Anchor(c)) then Some(Anchor(c).tx) else None
  }

  function StepOf(n: Node, e: Event): Step {
    match e
    case Do(action) => Act(n, action)
    case Get(message) => Receive(n, message)
  }

  function SecretIn(m: Option<Message>): Option<Secret> {
    if m.None? then None
    else
      match m.value
      case SettleConfirm(s, _) => Some(s)
      case SettleFinalize(s) => Some(s)
      case RenewFinalize(s, _) => Some(s)
      case RenewRevoke(s) => Some(s)
      case _ => None
  }

  /** A step that succeeded goes into the records. */
  function Recorded(run: Run, node: Node, reply: Option<Message>): Run {
    var before, after := Commitment(run.node.channel), Commitment(node.channel);
    Run(node,
        if before.Some? && before != after
        then run.superseded + [Superseded(before.value, run.node.channel.ownPoint.idx)]
        else run.superseded,
        if SecretIn(reply).Some? then run.revealed + {SecretIn(reply).value.idx} else run.revealed)
  }

  /** A failed step changes nothing. */
  function Advance(run: Run, e: Event): Run {
    match StepOf(run.node, e)
    case Err(_) => run
    case Ok((node, reply)) => Recorded(run, node, reply)
  }

  function Play(run: Run, events: seq<Event>): Run {
    if events == [] then run else Advance(Play(run, events[..|events| - 1]), events[|events| - 1])
  }

  // ---- The channel of the party ----

  /** The transaction shares out what is in the channel in this way. */
  predicate PaysOut(c: Channel, tx: Tx, own: nat, counter: nat)
    requires !tx.BufferTx?
  {
    PaidTo(tx, c.party) == own && PaidTo(tx, Other(c.party)) == counter && own + counter == c.Total()
  }

  /** A transaction with the counter party's signature that this party, and with
      its current point only this party, can complete; and its own signature of it. */
  predicate Usable(c: Channel, s: State)
    requires IsPublishable(s)
  {
    && (if s.Settled? then s.tx.SettleTx? else s.tx.BufferTx?)
    && OwnPointIn(s.tx, c.party) == c.ownPoint
    && CounterPointIn(s.tx, c.party) == c.counterPoint
    && s.counterSig == AdaptorSig(s.tx, Other(c.party), PublishKey(c.party, c.ownPoint))
    && s.ownSig == AdaptorSig(s.tx, c.party, PublishKey(Other(c.party), c.counterPoint))
    && (if s.Settled? then PaysOut(c, s.tx, s.ownPayout, s.counterPayout) else s.total == c.Total())
  }

  predicate CanRollBack(c: Channel) {
    c.rollBack.Some? && IsStable(c.rollBack.value) && Usable(c, c.rollBack.value)
  }

  predicate CanRollBackToContract(c: Channel) {
    CanRollBack(c) && c.rollBack.value.Established?
  }

  /** The transaction for the next index, with the points promised for it. */
  predicate Promised(c: Channel, tx: Tx, ownNext: Point, counterNext: Point) {
    && !tx.CloseTx? && c.updateIdx > 0 && ownNext == Point(c.party, c.updateIdx - 1)
    && OwnPointIn(tx, c.party) == ownNext && CounterPointIn(tx, c.party) == counterNext
  }

  predicate StateOk(c: Channel) {
    var p, s := c.party, c.state;
    match s
    case Established(_, _, _, _, _, _) => Usable(c, s)
    case Settled(_, _, _, _, _) => Usable(c, s)
    case SettledOffered(_, next) => CanRollBackToContract(c) && c.updateIdx > 0 && next == Point(p, c.updateIdx - 1)
    case SettledReceived(own, counter, _) => CanRollBackToContract(c) && own + counter == c.Total()
    case SettledAccepted(counterNext, ownNext, ownSig, tx, own, counter) =>
      && CanRollBackToContract(c) && tx.SettleTx? && Promised(c, tx, ownNext, counterNext)
      && PaysOut(c, tx, own, counter)
      && ownSig == AdaptorSig(tx, p, PublishKey(Other(p), counterNext))
    case SettledConfirmed(tx, counterSig, counterNext, ownNext, ownSig, own, counter) =>
      && CanRollBackToContract(c) && tx.SettleTx? && Promised(c, tx, ownNext, counterNext)
      && PaysOut(c, tx, own, counter)
      && ownSig == AdaptorSig(tx, p, PublishKey(Other(p), counterNext))
      && counterSig == AdaptorSig(tx, Other(p), PublishKey(p, ownNext))
    case RenewOffered(offered, _, next, isOffer) =>
      && CanRollBack(c) && offered.total == c.Total()
      && (isOffer ==> c.updateIdx > 0 && next == Point(p, c.updateIdx - 1))
    case RenewAccepted(_, offerPoint, acceptPoint, tx, _) =>
      CanRollBack(c) && tx.BufferTx? && Promised(c, tx, acceptPoint, offerPoint)
    case RenewConfirmed(_, offerPoint, acceptPoint, tx, ownSig, _, total) =>
      && CanRollBack(c) && tx.BufferTx? && Promised(c, tx, offerPoint, acceptPoint) && total == c.Total()
      && ownSig == AdaptorSig(tx, p, PublishKey(Other(p), acceptPoint))
    case RenewFinalized(_, _, _, _, _, _, _) => c.rollBack.Some? && Usable(c, s)
    case CloseOffered(counterPayout, tx, isOffer) =>
      && CanRollBack(c) && tx.CloseTx? && counterPayout <= c.Total()
      && (if isOffer then PaysOut(c, tx, c.Total() - counterPayout, counterPayout)
          else PaysOut(c, tx, counterPayout, c.Total() - counterPayout))
    case _ => false
  }

  /** The index of the current own point; renewals move it before the update index. */
  function PointIdx(c: Channel): int {
    if c.state.RenewFinalized? then c.updateIdx - 1 else c.updateIdx
  }

  predicate InOrder(c: Channel) {
    PointIdx(c) >= 0 && c.ownPoint == Point(c.party, PointIdx(c)) && StateOk(c)
  }

  ghost predicate ChannelOk(c: Channel) {
    && c.updateIdx <= INITIAL_UPDATE_NUMBER && InOrder(c)
    && (forall k: nat :: k in c.secrets <==> c.updateIdx < k <= INITIAL_UPDATE_NUMBER)
  }

  /** The counter party's signature of a transaction for the own point at `idx`. */
  predicate HoldsReplacement(c: Channel, idx: nat) {
    var s := c.state;
    && (IsPublishable(s) || s.SettledConfirmed?) && !s.tx.CloseTx?
    && OwnPointIn(s.tx, c.party) == Point(c.party, idx)
    && s.counterSig == AdaptorSig(s.tx, Other(c.party), PublishKey(c.party, Point(c.party, idx)))
  }

  /** A secret that is sent is that of the current index, for which a replacement is held. */
  predicate RevealsSafely(before: Channel, after: Channel, reply: Option<Message>) {
    SecretIn(reply).Some? ==>
      && SecretIn(reply).value == Secret(before.party, before.updateIdx)
      && before.updateIdx > 0 && HoldsReplacement(after, before.updateIdx - 1)
  }

  ghost predicate Kept(before: Channel, after: Channel) {
    && ChannelOk(after)
    && after.id == before.id && after.party == before.party
    && after.ownCollateral == before.ownCollateral && after.counterCollateral == before.counterCollateral
  }

  ghost predicate StepOk(before: Node, step: Step) {
    step.Ok? ==> Kept(before.channel, step.value.0.channel)
                 && RevealsSafely(before.channel, step.value.0.channel, step.value.1)
  }

  lemma ActSettleOk(n: Node, a: Action)
    requires ChannelOk(n.channel) && (a.OfferSettle? || a.AcceptSettle? || a.RejectSettle?)
    ensures StepOk(n, Act(n, a))
  {
  }

  lemma ActRenewOk(n: Node, a: Action)
    requires ChannelOk(n.channel) && (a.OfferRenew? || a.AcceptRenew? || a.RejectRenew?)
    ensures StepOk(n, Act(n, a))
  {
  }

  /** A collaborative close offered in the middle of something else. The code checks
      no state when offering one. */
  predicate OffersCloseEarly(c: Channel, a: Action) {
    a.OfferClose? && !IsStable(c.state) && CloseOfferOf(c, a.counterPayout).Ok?
  }

  lemma ActCloseOk(n: Node, a: Action)
    requires ChannelOk(n.channel) && a.OfferClose?
    ensures StepOk(n, Act(n, a)) <==> !OffersCloseEarly(n.channel, a)
  {
  }

  /** An own action keeps the channel in order and reveals nothing too early, exactly
      unless it is that one. */
  lemma ActOk(n: Node, a: Action)
    requires ChannelOk(n.channel)
    ensures StepOk(n, Act(n, a)) <==> !OffersCloseEarly(n.channel, a)
  {
    match a
    case OfferSettle(_) => ActSettleOk(n, a);
    case AcceptSettle => ActSettleOk(n, a);
    case RejectSettle => ActSettleOk(n, a);
    case OfferClose(_) => ActCloseOk(n, a);
    case _ => ActRenewOk(n, a);
  }

  lemma SettleAcceptOk(n: Node, m: Message)
    requires ChannelOk(n.channel) && m.SettleAccept?
    ensures StepOk(n, Receive(n, m))
  {
  }

  lemma SettleConfirmOk(n: Node, m: Message)
    requires ChannelOk(n.channel) && m.SettleConfirm?
    ensures StepOk(n, Receive(n, m))
  {
  }

  lemma SettleFinalizeOk(n: Node, m: Message)
    requires ChannelOk(n.channel) && m.SettleFinalize?
    ensures StepOk(n, Receive(n, m))
  {
  }

  /** The message accepts a renewal that the peer itself has offered, for a point that
      is not the party's own next one. The code does not check who made the offer. */
  predicate AcceptsPeersOffer(c: Channel, m: Message) {
    && m.RenewAccept? && c.state.RenewOffered? && !c.state.isOffer
    && (c.updateIdx == 0 || c.state.offerNext != Point(c.party, c.updateIdx - 1))
    && RenewConfirmOf(c, m).Ok?
  }

  lemma RenewAcceptOk(n: Node, m: Message)
    requires ChannelOk(n.channel) && m.RenewAccept?
    ensures StepOk(n, Receive(n, m)) <==> !AcceptsPeersOffer(n.channel, m)
  {
  }

  lemma RenewConfirmOk(n: Node, m: Message)
    requires ChannelOk(n.channel) && m.RenewConfirm?
    ensures StepOk(n, Receive(n, m))
  {
  }

  lemma RenewFinalizeOk(n: Node, m: Message)
    requires ChannelOk(n.channel) && m.RenewFinalize?
    ensures StepOk(n, Receive(n, m))
  {
  }

  lemma RenewRevokeOk(n: Node, m: Message)
    requires ChannelOk(n.channel) && m.RenewRevoke?
    ensures StepOk(n, Receive(n, m))
  {
  }

  lemma OpenOfferOk(n: Node, m: Message)
    requires ChannelOk(n.channel) && (m.SettleOffer? || m.RenewOffer?)
    ensures StepOk(n, Receive(n, m))
  {
  }

  lemma CloseOfferOk(n: Node, m: Message)
    requires ChannelOk(n.channel) && (m.CloseOffer? || m.Reject?)
    ensures StepOk(n, Receive(n, m))
  {
  }

  lemma OfferOk(n: Node, m: Message)
    requires ChannelOk(n.channel) && (m.SettleOffer? || m.RenewOffer? || m.CloseOffer? || m.Reject?)
    ensures StepOk(n, Receive(n, m))
  {
    if m.SettleOffer? || m.RenewOffer? {
      OpenOfferOk(n, m);
    } else {
      CloseOfferOk(n, m);
    }
  }

  /** Whatever message arrives: the channel stays in order and nothing is revealed too
      early, exactly unless the message accepts the peer's own renewal offer. */
  lemma ReceiveOk(n: Node, m: Message)
    requires ChannelOk(n.channel)
    ensures StepOk(n, Receive(n, m)) <==> !AcceptsPeersOffer(n.channel, m)
  {
    match m
    case SettleAccept(_, _) => SettleAcceptOk(n, m);
    case SettleConfirm(_, _) => SettleConfirmOk(n, m);
    case SettleFinalize(_) => SettleFinalizeOk(n, m);
    case RenewAccept(_, _) => RenewAcceptOk(n, m);
    case RenewConfirm(_, _) => RenewConfirmOk(n, m);
    case RenewFinalize(_, _) => RenewFinalizeOk(n, m);
    case RenewRevoke(_) => RenewRevokeOk(n, m);
    case _ => OfferOk(n, m);
  }

  /** The party has an offer open. */
  predicate Offering(c: Channel) {
    c.state.SettledOffered? || (c.state.RenewOffered? && c.state.isOffer)
  }

  /** A rejection is taken in exactly by a party that has an offer open, which is then back
      in the state before it, and by one that has nothing to reject, which stays as it is. */
  lemma RejectTakenIff(n: Node)
    requires ChannelOk(n.channel)
    ensures Receive(n, Reject).Ok? <==> IsStable(n.channel.state) || Offering(n.channel)
    ensures IsStable(n.channel.state) ==> Receive(n, Reject) == Ok((n, None))
    ensures Offering(n.channel) && Receive(n, Reject).Ok? ==>
              var (n', reply) := Receive(n, Reject).value;
              && n' == n.(channel := n.channel.(state := Anchor(n.channel), rollBack := None)) && reply.None?
              && IsStable(n'.channel.state)
  {
  }

  /** Once accepted in this way, the peer's own renewal can be carried on to where the
      party sends its current secret; it then holds a replacement for its own next
      point exactly when that is the point the peer offered. */
  lemma PeersOfferCarriedOn(n: Node, accept: Message) returns (finalize: Message)
    requires ChannelOk(n.channel) && accept.RenewAccept? && n.channel.state.RenewOffered? && !n.channel.state.isOffer
    requires Receive(n, accept).Ok? && n.channel.updateIdx > 0
    requires n.channel.counterPoint == Point(Other(n.channel.party), n.channel.updateIdx)
    ensures var n1 := Receive(n, accept).value.0;
            && Receive(n1, finalize).Ok?
            && var (n2, reply) := Receive(n1, finalize).value;
            && SecretIn(reply) == Some(Secret(n.channel.party, n.channel.updateIdx))
            && (RevealsSafely(n1.channel, n2.channel, reply) <==>
                n.channel.state.offerNext == Point(n.channel.party, n.channel.updateIdx - 1))
  {
    var c := n.channel;
    var n1 := Receive(n, accept).value.0;
    finalize := RenewFinalize(Secret(Other(c.party), c.updateIdx),
                              AdaptorSig(n1.channel.state.tx, Other(c.party), PublishKey(c.party, c.state.offerNext)));
    assert n1.channel.rollBack == c.rollBack && CanRollBack(c);
    assert RenewRevokeOf(n1.channel, finalize).Ok?;
  }
}
