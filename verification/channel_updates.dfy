/** What the functions of dlc-manager/src/channel_updater.rs make of a channel. */
module ChannelUpdates {

  import opened Results
  import opened ChannelTypes

  type Update = Outcome<(Channel, Message)>

  function OwnSecret(c: Channel, idx: nat): Secret {
    Secret(c.party, idx)
  }

  /** The point for the next index, which must exist. */
  function NextPoint(c: Channel): Outcome<Point> {
    if c.updateIdx == 0 then Err(Fault) else Ok(PointOf(OwnSecret(c, c.updateIdx - 1)))
  }

  /** Enters a state that can be rolled back. */
  function Negotiate(c: Channel, state: State): Channel {
    c.(state := state, rollBack := Some(c.state))
  }

  function RolledBack(c: Channel): Outcome<Channel> {
    if c.rollBack.None? then Err(Fault) else Ok(c.(state := c.rollBack.value, rollBack := None))
  }

  // ---- Settling ----

  function SettleOfferOf(c: Channel, counterPayout: nat): Update {
    if !c.state.Established? then Err(BadState)
    else
      match NextPoint(c)
      case Err(e) => Err(e)
      case Ok(next) => Ok((Negotiate(c, SettledOffered(counterPayout, next)), SettleOffer(counterPayout, next)))
  }

  function OnSettleOffer(c: Channel, m: Message): Outcome<Channel>
    requires m.SettleOffer?
  {
    if !c.state.Established? then Err(BadState)
    else if m.counterPayout > c.Total() then Err(BadOffer)
    else Ok(Negotiate(c, SettledReceived(m.counterPayout, c.Total() - m.counterPayout, m.nextPoint)))
  }

  /** The accepting party builds and signs the settle transaction. */
  function SettleAcceptOf(c: Channel): Update {
    if !c.state.SettledReceived? then Err(BadState)
    else if c.state.ownPayout > c.Total() then Err(Fault)
    else
      match NextPoint(c)
      case Err(e) => Err(e)
      case Ok(next) =>
        var s := c.state;
        var offerer := Other(c.party);
        var tx := SettleTx(offerer, s.counterNext, next, c.Total() - s.ownPayout, s.ownPayout);
        var sig := AdaptorSig(tx, c.party, PublishKey(offerer, s.counterNext));
        Ok((c.(state := SettledAccepted(s.counterNext, next, sig, tx, s.ownPayout, s.counterPayout)),
            SettleAccept(next, sig)))
  }

  /** The offering party checks the signature it needs before it reveals its secret. */
  function SettleConfirmOf(c: Channel, m: Message): Update
    requires m.SettleAccept?
  {
    if !c.state.SettledOffered? then Err(BadState)
    else if c.state.counterPayout > c.Total() then Err(Fault)
    else
      var s := c.state;
      var accepter := Other(c.party);
      var ownPayout := c.Total() - s.counterPayout;
      var tx := SettleTx(c.party, s.nextPoint, m.nextPoint, ownPayout, s.counterPayout);
      if m.sig != AdaptorSig(tx, accepter, PublishKey(c.party, s.nextPoint)) then Err(BadProof)
      else
        var sig := AdaptorSig(tx, c.party, PublishKey(accepter, m.nextPoint));
        Ok((c.(state := SettledConfirmed(tx, m.sig, m.nextPoint, s.nextPoint, sig, ownPayout, s.counterPayout)),
            SettleConfirm(OwnSecret(c, c.updateIdx), sig)))
  }

  function SettleFinalizeOf(c: Channel, m: Message): Update
    requires m.SettleConfirm?
  {
    if !c.state.SettledAccepted? then Err(BadState)
    else
      var s := c.state;
      if m.sig != AdaptorSig(s.tx, Other(c.party), PublishKey(c.party, s.ownNext)) then Err(BadProof)
      else if PointOf(m.prevSecret) != c.counterPoint then Err(BadProof)
      else
        match ProvideSecret(c.secrets, c.updateIdx, m.prevSecret)
        case Err(e) => Err(e)
        case Ok(secrets) =>
          if c.updateIdx == 0 then Err(Fault)
          else
            Ok((c.(state := Settled(s.tx, m.sig, s.ownSig, s.ownPayout, s.counterPayout), rollBack := None,
                   ownPoint := s.ownNext, counterPoint := s.counterNext, secrets := secrets,
                   updateIdx := c.updateIdx - 1),
                SettleFinalize(OwnSecret(c, c.updateIdx))))
  }

  function OnSettleFinalize(c: Channel, m: Message): Outcome<Channel>
    requires m.SettleFinalize?
  {
    if !c.state.SettledConfirmed? then Err(BadState)
    else
      var s := c.state;
      if PointOf(m.prevSecret) != c.counterPoint then Err(BadProof)
      else
        match ProvideSecret(c.secrets, c.updateIdx, m.prevSecret)
        case Err(e) => Err(e)
        case Ok(secrets) =>
          if c.updateIdx == 0 then Err(Fault)
          else
            Ok(c.(state := Settled(s.tx, s.counterSig, s.ownSig, s.ownPayout, s.counterPayout), rollBack := None,
                  ownPoint := s.ownNext, counterPoint := s.counterNext, secrets := secrets,
                  updateIdx := c.updateIdx - 1))
  }

  function RejectSettleOf(c: Channel): Update {
    if !c.state.SettledReceived? then Err(BadState)
    else
      match RolledBack(c)
      case Err(e) => Err(e)
      case Ok(back) => Ok((back, Reject))
  }

  // ---- Renewing ----

  datatype ContractInput = ContractInput(offerCollateral: nat, acceptCollateral: nat, terms: nat)

  /** The contract must fit what the parties hold in the channel. */
  function CheckInput(c: Channel, input: ContractInput): Outcome<()> {
    match c.state
    case Established(_, _, _, _, _, total) =>
      if total == input.acceptCollateral + input.offerCollateral then Ok(()) else Err(BadOffer)
    case Settled(_, _, _, ownPayout, counterPayout) =>
      if input.offerCollateral == ownPayout && input.acceptCollateral == counterPayout then Ok(()) else Err(BadOffer)
    case _ => Err(BadState)
  }

  function RenewOfferOf(c: Channel, input: ContractInput, counterPayout: nat): Update {
    match CheckInput(c, input)
    case Err(e) => Err(e)
    case Ok(_) =>
      match NextPoint(c)
      case Err(e) => Err(e)
      case Ok(next) =>
        var offered := Contract(c.updateIdx, input.terms, input.offerCollateral + input.acceptCollateral, true);
        Ok((Negotiate(c, RenewOffered(offered, counterPayout, next, true)),
            RenewOffer(counterPayout, next, input.terms)))
  }

  function OnRenewOffer(c: Channel, m: Message): Outcome<Channel>
    requires m.RenewOffer?
  {
    if !c.state.Established? && !c.state.Settled? then Err(BadState)
    else
      var offered := Contract(c.updateIdx, m.terms, c.Total(), false);
      Ok(Negotiate(c, RenewOffered(offered, m.counterPayout, m.nextPoint, false)))
  }

  function BufferTxOf(offered: Contract, offerer: Party, offerPoint: Point, acceptPoint: Point): Tx {
    BufferTx(offered.id, offered.terms, offered.total, offerer, offerPoint, acceptPoint)
  }

  /** It is not checked here that the peer made the offer. */
  function RenewAcceptOf(c: Channel): Update {
    if !c.state.RenewOffered? then Err(BadState)
    else
      match NextPoint(c)
      case Err(e) => Err(e)
      case Ok(next) =>
        var s := c.state;
        var tx := BufferTxOf(s.offered, Other(c.party), s.offerNext, next);
        Ok((c.(state := RenewAccepted(s.offered, s.offerNext, next, tx, s.counterPayout)),
            RenewAccept(next, ContractSig(tx, c.party))))
  }

  function RenewConfirmOf(c: Channel, m: Message): Update
    requires m.RenewAccept?
  {
    if !c.state.RenewOffered? then Err(BadState)
    else if c.state.counterPayout > c.state.offered.total then Err(Fault)
    else
      var s := c.state;
      var tx := BufferTxOf(s.offered, c.party, s.offerNext, m.nextPoint);
      if m.contractSig != ContractSig(tx, Other(c.party)) then Err(BadProof)
      else
        var sig := AdaptorSig(tx, c.party, PublishKey(Other(c.party), m.nextPoint));
        Ok((c.(state := RenewConfirmed(s.offered.id, s.offerNext, m.nextPoint, tx, sig,
                                       s.offered.total - s.counterPayout, s.offered.total)),
            RenewConfirm(sig, ContractSig(tx, c.party))))
  }

  /** The points move now, the index only with the revocation. */
  function RenewFinalizeOf(c: Channel, m: Message): Update
    requires m.RenewConfirm?
  {
    if !c.state.RenewAccepted? then Err(BadState)
    else
      var s := c.state;
      if m.sig != AdaptorSig(s.tx, Other(c.party), PublishKey(c.party, s.acceptPoint)) then Err(BadProof)
      else if m.contractSig != ContractSig(s.tx, Other(c.party)) then Err(BadProof)
      else
        var sig := AdaptorSig(s.tx, c.party, PublishKey(Other(c.party), s.offerPoint));
        Ok((c.(state := RenewFinalized(s.offered.id, c.counterPoint, s.tx, m.sig, sig, s.ownPayout, c.Total()),
               ownPoint := s.acceptPoint, counterPoint := s.offerPoint),
            RenewFinalize(OwnSecret(c, c.updateIdx), sig)))
  }

  function RenewRevokeOf(c: Channel, m: Message): Update
    requires m.RenewFinalize?
  {
    if !c.state.RenewConfirmed? then Err(BadState)
    else
      var s := c.state;
      if m.sig != AdaptorSig(s.tx, Other(c.party), PublishKey(c.party, s.offerPoint)) then Err(BadProof)
      else if PointOf(m.prevSecret) != c.counterPoint then Err(BadProof)
      else
        match ProvideSecret(c.secrets, c.updateIdx, m.prevSecret)
        case Err(e) => Err(e)
        case Ok(secrets) =>
          if c.updateIdx == 0 then Err(Fault)
          else
            Ok((c.(state := Established(s.contract, m.sig, s.ownSig, s.tx, true, s.total), rollBack := None,
                   ownPoint := s.offerPoint, counterPoint := s.acceptPoint, secrets := secrets,
                   updateIdx := c.updateIdx - 1),
                RenewRevoke(OwnSecret(c, c.updateIdx))))
  }

  /** The state to roll back to stays behind. */
  function OnRenewRevoke(c: Channel, m: Message): Outcome<Channel>
    requires m.RenewRevoke?
  {
    if !c.state.RenewFinalized? then Err(BadState)
    else
      var s := c.state;
      if PointOf(m.prevSecret) != s.prevOfferPoint then Err(BadProof)
      else
        match ProvideSecret(c.secrets, c.updateIdx, m.prevSecret)
        case Err(e) => Err(e)
        case Ok(secrets) =>
          if c.updateIdx == 0 then Err(Fault)
          else
            Ok(c.(state := Established(s.contract, s.counterSig, s.ownSig, s.tx, true, s.total),
                  secrets := secrets, updateIdx := c.updateIdx - 1))
  }

  function RejectRenewOf(c: Channel): Update {
    if !c.state.RenewOffered? || c.state.isOffer then Err(BadState)
    else
      match RolledBack(c)
      case Err(e) => Err(e)
      case Ok(back) => Ok((back, Reject))
  }

  // ---- Rejection and collaborative close ----

  function OnReject(c: Channel): Outcome<Channel> {
    if c.state.Established? || c.state.Settled? then Ok(c)
    else if (c.state.RenewOffered? && c.state.isOffer) || c.state.SettledOffered? then RolledBack(c)
    else Err(BadState)
  }

  /** No state is checked when offering. */
  function CloseOfferOf(c: Channel, counterPayout: nat): Update {
    if counterPayout > c.Total() then Err(BadOffer)
    else
      var tx := CloseTx(c.party, c.Total() - counterPayout, counterPayout);
      Ok((Negotiate(c, CloseOffered(counterPayout, tx, true)), CloseOffer(counterPayout)))
  }

  function OnCloseOffer(c: Channel, m: Message): Outcome<Channel>
    requires m.CloseOffer?
  {
    if m.counterPayout > c.Total() then Err(BadOffer)
    else if c.rollBack.Some? then Err(BadState)
    else
      var tx := CloseTx(Other(c.party), c.Total() - m.counterPayout, m.counterPayout);
      Ok(Negotiate(c, CloseOffered(m.counterPayout, tx, false)))
  }
}
