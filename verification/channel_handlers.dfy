/** What the channel functions of dlc-manager/src/manager.rs make of the stored
    channel, the watched transactions and the closed contracts of one party. */
module ChannelHandlers {

  import opened Results
  import opened ChannelTypes
  import opened ChannelUpdates
  import opened ChainMonitoring

  datatype ClosedContract = ClosedContract(contract: nat, pnl: int)

  datatype Node = Node(channel: Channel, watches: Watches, closed: seq<ClosedContract>)

  type Step = Outcome<(Node, Option<Message>)>

  datatype Action =
    | OfferSettle(counterPayout: nat)
    | AcceptSettle
    | RejectSettle
    | OfferRenew(input: ContractInput, counterPayout: nat)
    | AcceptRenew
    | RejectRenew
    | OfferClose(counterPayout: nat)

  /** The record of a contract closed for an own payout, or for a payout of the counter party. */
  function ClosedContractOf(c: Channel, contract: nat, payout: nat, isOwnPayout: bool): ClosedContract {
    var ownPayout := if isOwnPayout then payout else c.Total() - payout;
    ClosedContract(contract, ownPayout - c.ownCollateral)
  }

  function Watch(n: Node, tx: Tx, txType: TxType): Node {
    n.(watches := Watching(n.watches, tx, ChannelInfo(n.channel.id, txType)))
  }

  function Stored(n: Node, update: Outcome<Channel>): Step {
    match update
    case Err(e) => Err(e)
    case Ok(channel) => Ok((n.(channel := channel), None))
  }

  function StoredAndSent(n: Node, update: Update): Step {
    match update
    case Err(e) => Err(e)
    case Ok((channel, message)) => Ok((n.(channel := channel), Some(message)))
  }

  /** Starts or answers a negotiation. */
  function Act(n: Node, action: Action): Step {
    match action
    case OfferSettle(counterPayout) => StoredAndSent(n, SettleOfferOf(n.channel, counterPayout))
    case AcceptSettle =>
      (match SettleAcceptOf(n.channel)
       case Err(e) => Err(e)
       case Ok((channel, message)) =>
         Ok((Watch(n, channel.state.tx, WatchedSettle2(false)).(channel := channel), Some(message))))
    case RejectSettle => StoredAndSent(n, RejectSettleOf(n.channel))
    case OfferRenew(input, counterPayout) => StoredAndSent(n, RenewOfferOf(n.channel, input, counterPayout))
    case AcceptRenew => StoredAndSent(n, RenewAcceptOf(n.channel))
    case RejectRenew => StoredAndSent(n, RejectRenewOf(n.channel))
    case OfferClose(counterPayout) =>
      (match CloseOfferOf(n.channel, counterPayout)
       case Err(e) => Err(e)
       case Ok((channel, message)) =>
         Ok((Watch(n, channel.state.tx, CollaborativeClose).(channel := channel), Some(message))))
  }

  /** Handles a message of the peer. */
  function Receive(n: Node, m: Message): Step {
    match m
    case SettleOffer(_, _) =>
      if n.channel.state.SettledOffered? then Ok((n, Some(Reject))) else Stored(n, OnSettleOffer(n.channel, m))
    case SettleAccept(_, _) => ReceiveSettleAccept(n, m)
    case SettleConfirm(_, _) => ReceiveSettleConfirm(n, m)
    case SettleFinalize(_) => ReceiveSettleFinalize(n, m)
    case RenewOffer(_, _, _) =>
      if n.channel.state.RenewOffered? && n.channel.state.isOffer then Ok((n, Some(Reject)))
      else Stored(n, OnRenewOffer(n.channel, m))
    case RenewAccept(_, _) => StoredAndSent(n, RenewConfirmOf(n.channel, m))
    case RenewConfirm(_, _) => ReceiveRenewConfirm(n, m)
    case RenewFinalize(_, _) => ReceiveRenewFinalize(n, m)
    case RenewRevoke(_) => Stored(n, OnRenewRevoke(n.channel, m))
    case Reject => Stored(n, OnReject(n.channel))
    case CloseOffer(_) => Stored(n, OnCloseOffer(n.channel, m))
  }

  function ReceiveSettleAccept(n: Node, m: Message): Step
    requires m.SettleAccept?
  {
    match SettleConfirmOf(n.channel, m)
    case Err(e) => Err(e)
    case Ok((channel, message)) =>
      Ok((Watch(n, channel.state.tx, WatchedSettle2(true)).(channel := channel), Some(message)))
  }

  /** The channel is settled: the former buffer transaction is revoked and its contract closed. */
  function AfterSettling(n: Node, channel: Channel, previous: State, ownPayout: nat): Node
    requires previous.Established?
  {
    Watch(n, previous.tx, Revoked(channel.updateIdx + 1, previous.ownSig, previous.isOffer, RevokedBuffer))
    .(channel := channel,
      closed := n.closed + [ClosedContractOf(n.channel, previous.contract, ownPayout, true)])
  }

  function ReceiveSettleConfirm(n: Node, m: Message): Step
    requires m.SettleConfirm?
  {
    var c := n.channel;
    if !c.state.SettledAccepted? || c.rollBack.None? || !c.rollBack.value.Established? then Err(BadState)
    else
      match SettleFinalizeOf(c, m)
      case Err(e) => Err(e)
      case Ok((channel, message)) =>
        Ok((AfterSettling(n, channel, c.rollBack.value, c.state.ownPayout), Some(message)))
  }

  function ReceiveSettleFinalize(n: Node, m: Message): Step
    requires m.SettleFinalize?
  {
    var c := n.channel;
    if !c.state.SettledConfirmed? || c.rollBack.None? || !c.rollBack.value.Established? then Err(BadState)
    else
      match OnSettleFinalize(c, m)
      case Err(e) => Err(e)
      case Ok(channel) => Ok((AfterSettling(n, channel, c.rollBack.value, c.state.ownPayout), None))
  }

  /** What a renewal revokes, and the contract that it closes. */
  function RevokedType(previous: State, updateIdx: nat): TxType
    requires previous.Established? || previous.Settled?
  {
    Revoked(updateIdx, previous.ownSig, false, if previous.Established? then RevokedBuffer else RevokedSettle)
  }

  function ClosedByRenewal(n: Node, previous: State, ownPayout: nat): seq<ClosedContract> {
    if previous.Established? then n.closed + [ClosedContractOf(n.channel, previous.contract, ownPayout, true)]
    else n.closed
  }

  function ReceiveRenewConfirm(n: Node, m: Message): Step
    requires m.RenewConfirm?
  {
    var c := n.channel;
    if !c.state.RenewAccepted? then Err(BadState)
    else if c.rollBack.None? then Err(Fault)
    else if !c.rollBack.value.Established? && !c.rollBack.value.Settled? then Err(BadState)
    else
      match RenewFinalizeOf(c, m)
      case Err(e) => Err(e)
      case Ok((channel, message)) =>
        var previous := c.rollBack.value;
        Ok((Watch(Watch(n, channel.state.tx, WatchedBuffer), previous.tx, RevokedType(previous, c.updateIdx))
            .(channel := channel, closed := ClosedByRenewal(n, previous, c.state.ownPayout)),
            Some(message)))
  }

  function ReceiveRenewFinalize(n: Node, m: Message): Step
    requires m.RenewFinalize?
  {
    var c := n.channel;
    if !c.state.RenewConfirmed? then Err(BadState)
    else if c.rollBack.None? then Err(Fault)
    else if !c.rollBack.value.Established? && !c.rollBack.value.Settled? then Err(BadState)
    else
      match RenewRevokeOf(c, m)
      case Err(e) => Err(e)
      case Ok((channel, message)) =>
        var previous := c.rollBack.value;
        Ok((Watch(Watch(n, previous.tx, RevokedType(previous, c.updateIdx)), channel.state.tx, WatchedBuffer)
            .(channel := channel, closed := ClosedByRenewal(n, previous, c.state.ownPayout)),
            Some(message)))
  }

  // ---- Closing ----

  /** A transaction about to be broadcast, the state it comes from, and the roll
      backs it took to get there. */
  datatype Broadcast = Broadcast(tx: Tx, from: State, counterSig: AdaptorSig, rollBacks: nat)

  /** A signature can be used with the publish key of the own current point only. */
  function Decrypt(c: Channel, sig: AdaptorSig): Outcome<AdaptorSig> {
    if sig.key == PublishKey(c.party, c.ownPoint) then Ok(sig) else Err(BadProof)
  }

  function ForceClose(c: Channel, settlementKnown: bool): (r: Outcome<Broadcast>)
    ensures r.Ok? ==>
              && r.value.counterSig.key == PublishKey(c.party, c.ownPoint)
              && (r.value.from.Established? || r.value.from.RenewFinalized?
                  || (r.value.from.Settled? && settlementKnown))
    decreases if c.rollBack.Some? then 1 else 0
  {
    match c.state
    case Established(_, counterSig, _, tx, _, _) => BroadcastOf(c, counterSig, tx)
    case RenewFinalized(_, _, tx, counterSig, _, _, _) => BroadcastOf(c, counterSig, tx)
    case Settled(tx, counterSig, _, _, _) => if settlementKnown then BroadcastOf(c, counterSig, tx) else Err(BadState)
    case Closing(_, _, _) => Err(BadState)
    case SettledClosing(_, _, _) => Err(BadState)
    case _ =>
      if c.rollBack.None? then Err(Fault)
      else
        match ForceClose(c.(state := c.rollBack.value, rollBack := None), settlementKnown)
        case Err(e) => Err(e)
        case Ok(b) => Ok(b.(rollBacks := b.rollBacks + 1))
  }

  function BroadcastOf(c: Channel, counterSig: AdaptorSig, tx: Tx): Outcome<Broadcast> {
    match Decrypt(c, counterSig)
    case Err(e) => Err(e)
    case Ok(sig) => Ok(Broadcast(tx, c.state, sig, 0))
  }

  /** The contract closed when the party that offered a collaborative close sees it confirmed. */
  function ClosedByOfferer(c: Channel): Outcome<seq<ClosedContract>> {
    if !c.state.CloseOffered? then Err(BadState)
    else if c.rollBack.Some? && c.rollBack.value.Established? then
      Ok([ClosedContractOf(c, c.rollBack.value.contract, c.state.counterPayout, false)])
    else Ok([])
  }

  /** The contract closed when the other party accepts it. */
  function ClosedByAccepter(c: Channel): Outcome<seq<ClosedContract>> {
    if !c.state.CloseOffered? || c.state.isOffer then Err(BadState)
    else if c.rollBack.Some? && c.rollBack.value.Established? then
      Ok([ClosedContractOf(c, c.rollBack.value.contract, c.state.counterPayout, true)])
    else Ok([])
  }

  /** What the handler of a broadcast revoked transaction makes of its watch entry:
      the penalty needs the counter party's secret, the key that its signature
      reveals, and the script and output that the recorded role points to. */
  function Punish(c: Channel, tx: Tx, updateIdx: nat, ownSig: AdaptorSig, isOffer: bool,
                  kind: RevokedKind): Outcome<Secret>
  {
    if updateIdx !in c.secrets then Err(Fault)
    else
      var secret := c.secrets[updateIdx];
      var own := PublishKey(c.party, PointOf(OwnSecret(c, updateIdx)));
      var counter := PublishKey(Other(c.party), PointOf(secret));
      if ownSig.key != counter then Err(BadProof)
      else
        var script := if kind == RevokedSettle then SettleScript(counter, own)
                      else if isOffer then BufferScript(own, counter) else BufferScript(counter, own);
        var vout := if kind == RevokedSettle && isOffer then 1 else 0;
        if vout >= |OutputsOf(tx)| then Err(Fault)
        else if OutputsOf(tx)[vout] != script then Err(BadProof)
        else Ok(secret)
  }
}
