/** The updates of dlc-manager/src/channel_updater.rs in place on a signed channel,
    step by step as they are made there. */
module SignedChannels {

  import opened Results
  import opened ChannelTypes
  import opened ChannelUpdates
  import opened ChainMonitoring

  /** The method did what the update says, or failed as it says without a trace. */
  predicate Did(r: Outcome<Message>, before: Channel, after: Channel, update: Update) {
    match update
    case Ok((channel, message)) => r == Ok(message) && after == channel
    case Err(e) => r == Err(e) && after == before
  }

  predicate DidQuietly(r: Outcome<()>, before: Channel, after: Channel, update: Outcome<Channel>) {
    match update
    case Ok(channel) => r == Ok(()) && after == channel
    case Err(e) => r == Err(e) && after == before
  }

  class SignedChannel {
    const id: nat
    const party: Party
    const ownCollateral: nat
    const counterCollateral: nat
    var state: State
    var rollBackState: Option<State>
    var updateIdx: nat
    var ownPerUpdatePoint: Point
    var counterPerUpdatePoint: Point
    var secrets: map<nat, Secret>

    /** The channel as a value. */
    function View(): Channel
      reads this
    {
      Channel(id, party, ownCollateral, counterCollateral, state, rollBackState, updateIdx,
              ownPerUpdatePoint, counterPerUpdatePoint, secrets)
    }

    constructor (c: Channel)
      ensures View() == c
    {
      id, party, ownCollateral, counterCollateral := c.id, c.party, c.ownCollateral, c.counterCollateral;
      state, rollBackState, updateIdx := c.state, c.rollBack, c.updateIdx;
      ownPerUpdatePoint, counterPerUpdatePoint, secrets := c.ownPoint, c.counterPoint, c.secrets;
    }

    method SettleChannelOffer(counterPayout: nat) returns (r: Outcome<Message>)
      modifies this
      ensures Did(r, old(View()), View(), SettleOfferOf(old(View()), counterPayout))
    {
      if !state.Established? {
        return Err(BadState);
      }
      if updateIdx == 0 {
        return Err(Fault);
      }
      var nextPerUpdatePoint := PointOf(Secret(party, updateIdx - 1));
      var newState := SettledOffered(counterPayout, nextPerUpdatePoint);
      state, newState := newState, state;
      rollBackState := Some(newState);
      return Ok(SettleOffer(counterPayout, nextPerUpdatePoint));
    }

    method OnSettleOffer(m: Message) returns (r: Outcome<()>)
      requires m.SettleOffer?
      modifies this
      ensures DidQuietly(r, old(View()), View(), ChannelUpdates.OnSettleOffer(old(View()), m))
    {
      if !state.Established? {
        return Err(BadState);
      }
      var totalCollateral := ownCollateral + counterCollateral;
      if m.counterPayout > totalCollateral {
        return Err(BadOffer);
      }
      var newState := SettledReceived(m.counterPayout, totalCollateral - m.counterPayout, m.nextPoint);
      state, newState := newState, state;
      rollBackState := Some(newState);
      return Ok(());
    }

    /** The settle transaction and the own signature of it, after a check of the
        counter party's signature when there is one. */
    method GetSettleTxAndAdaptorSig(ownNext: Point, counterNext: Point, offerPayout: nat, acceptPayout: nat,
                                    counterSig: Option<AdaptorSig>)
      returns (r: Outcome<(Tx, AdaptorSig)>)
      ensures var tx := if counterSig.Some? then SettleTx(party, ownNext, counterNext, offerPayout, acceptPayout)
                        else SettleTx(Other(party), counterNext, ownNext, offerPayout, acceptPayout);
              r == if counterSig.Some? && counterSig.value != AdaptorSig(tx, Other(party), PublishKey(party, ownNext))
                   then Err(BadProof)
                   else Ok((tx, AdaptorSig(tx, party, PublishKey(Other(party), counterNext))))
    {
      var isOffer := counterSig.Some?;
      var offerPoint, acceptPoint := counterNext, ownNext;
      if isOffer {
        offerPoint, acceptPoint := ownNext, counterNext;
      }
      var offerer := if isOffer then party else Other(party);
      var settleTx := SettleTx(offerer, offerPoint, acceptPoint, offerPayout, acceptPayout);
      if isOffer {
        if counterSig.value != AdaptorSig(settleTx, Other(party), PublishKey(offerer, offerPoint)) {
          return Err(BadProof);
        }
      }
      var counterKey := if isOffer then PublishKey(Other(offerer), acceptPoint) else PublishKey(offerer, offerPoint);
      return Ok((settleTx, AdaptorSig(settleTx, party, counterKey)));
    }

    method SettleChannelAccept(monitor: ChainMonitor) returns (r: Outcome<Message>)
      modifies this, monitor
      ensures Did(r, old(View()), View(), SettleAcceptOf(old(View())))
      ensures monitor.Contents() ==
              if r.Ok? then Watching(old(monitor.Contents()), View().state.tx, ChannelInfo(id, WatchedSettle2(false)))
              else old(monitor.Contents())
    {
      if !state.SettledReceived? {
        return Err(BadState);
      }
      var ownPayout, counterNext, counterPayout := state.ownPayout, state.counterNext, state.counterPayout;
      var totalCollateral := ownCollateral + counterCollateral;
      if ownPayout > totalCollateral || updateIdx == 0 {
        return Err(Fault);
      }
      var ownNext := PointOf(Secret(party, updateIdx - 1));
      var signed := GetSettleTxAndAdaptorSig(ownNext, counterNext, totalCollateral - ownPayout, ownPayout, None);
      var (settleTx, sig) := signed.value;
      monitor.AddTx(settleTx, ChannelInfo(id, WatchedSettle2(false)));
      state := SettledAccepted(counterNext, ownNext, sig, settleTx, ownPayout, counterPayout);
      return Ok(SettleAccept(ownNext, sig));
    }

    method SettleChannelConfirm(m: Message, monitor: ChainMonitor) returns (r: Outcome<Message>)
      requires m.SettleAccept?
      modifies this, monitor
      ensures Did(r, old(View()), View(), SettleConfirmOf(old(View()), m))
      ensures monitor.Contents() ==
              if r.Ok? then Watching(old(monitor.Contents()), View().state.tx, ChannelInfo(id, WatchedSettle2(true)))
              else old(monitor.Contents())
    {
      if !state.SettledOffered? {
        return Err(BadState);
      }
      var counterPayout, nextPoint := state.counterPayout, state.nextPoint;
      var totalCollateral := counterCollateral + ownCollateral;
      if counterPayout > totalCollateral {
        return Err(Fault);
      }
      var ownPayout := totalCollateral - counterPayout;
      var signed := GetSettleTxAndAdaptorSig(nextPoint, m.nextPoint, ownPayout, counterPayout, Some(m.sig));
      if signed.Err? {
        return Err(signed.error);
      }
      var (settleTx, sig) := signed.value;
      monitor.AddTx(settleTx, ChannelInfo(id, WatchedSettle2(true)));
      var prevSecret := Secret(party, updateIdx);
      state := SettledConfirmed(settleTx, m.sig, m.nextPoint, nextPoint, sig, ownPayout, counterPayout);
      return Ok(SettleConfirm(prevSecret, sig));
    }

    method SettleChannelFinalize(m: Message) returns (r: Outcome<Message>)
      requires m.SettleConfirm?
      modifies this
      ensures Did(r, old(View()), View(), SettleFinalizeOf(old(View()), m))
    {
      if !state.SettledAccepted? {
        return Err(BadState);
      }
      var s := state;
      if m.sig != AdaptorSig(s.tx, Other(party), PublishKey(party, s.ownNext)) {
        return Err(BadProof);
      }
      if PointOf(m.prevSecret) != counterPerUpdatePoint {
        return Err(BadProof);
      }
      var provided := ProvideSecret(secrets, updateIdx, m.prevSecret);
      if provided.Err? {
        return Err(provided.error);
      }
      if updateIdx == 0 {
        return Err(Fault);
      }
      secrets := provided.value;
      var prevSecret := Secret(party, updateIdx);
      ownPerUpdatePoint := s.ownNext;
      counterPerUpdatePoint := s.counterNext;
      state := Settled(s.tx, m.sig, s.ownSig, s.ownPayout, s.counterPayout);
      rollBackState := None;
      updateIdx := updateIdx - 1;
      return Ok(SettleFinalize(prevSecret));
    }

    method SettleChannelOnFinalize(m: Message) returns (r: Outcome<()>)
      requires m.SettleFinalize?
      modifies this
      ensures DidQuietly(r, old(View()), View(), OnSettleFinalize(old(View()), m))
    {
      if !state.SettledConfirmed? {
        return Err(BadState);
      }
      var s := state;
      if PointOf(m.prevSecret) != counterPerUpdatePoint {
        return Err(BadProof);
      }
      var provided := ProvideSecret(secrets, updateIdx, m.prevSecret);
      if provided.Err? {
        return Err(provided.error);
      }
      if updateIdx == 0 {
        return Err(Fault);
      }
      secrets := provided.value;
      state := Settled(s.tx, s.counterSig, s.ownSig, s.ownPayout, s.counterPayout);
      rollBackState := None;
      ownPerUpdatePoint := s.ownNext;
      counterPerUpdatePoint := s.counterNext;
      updateIdx := updateIdx - 1;
      return Ok(());
    }

    method RejectSettleOffer() returns (r: Outcome<Message>)
      modifies this
      ensures Did(r, old(View()), View(), RejectSettleOf(old(View())))
    {
      if !state.SettledReceived? {
        return Err(BadState);
      }
      if rollBackState.None? {
        return Err(Fault);
      }
      state := rollBackState.value;
      rollBackState := None;
      return Ok(Reject);
    }

    method RenewOffer(input: ContractInput, counterPayout: nat) returns (r: Outcome<Message>)
      modifies this
      ensures Did(r, old(View()), View(), RenewOfferOf(old(View()), input, counterPayout))
    {
      match state {
        case Established(_, _, _, _, _, total) =>
          if total != input.acceptCollateral + input.offerCollateral {
            return Err(BadOffer);
          }
        case Settled(_, _, _, ownPayout, theirPayout) =>
          if input.offerCollateral != ownPayout || input.acceptCollateral != theirPayout {
            return Err(BadOffer);
          }
        case _ =>
          return Err(BadState);
      }
      if updateIdx == 0 {
        return Err(Fault);
      }
      var offered := Contract(updateIdx, input.terms, input.offerCollateral + input.acceptCollateral, true);
      var nextPerUpdatePoint := PointOf(Secret(party, updateIdx - 1));
      var newState := RenewOffered(offered, counterPayout, nextPerUpdatePoint, true);
      state, newState := newState, state;
      rollBackState := Some(newState);
      return Ok(Message.RenewOffer(counterPayout, nextPerUpdatePoint, input.terms));
    }

    method OnRenewOffer(m: Message) returns (r: Outcome<()>)
      requires m.RenewOffer?
      modifies this
      ensures DidQuietly(r, old(View()), View(), ChannelUpdates.OnRenewOffer(old(View()), m))
    {
      if !state.Settled? && !state.Established? {
        return Err(BadState);
      }
      var offered := Contract(updateIdx, m.terms, ownCollateral + counterCollateral, false);
      var newState := RenewOffered(offered, m.counterPayout, m.nextPoint, false);
      state, newState := newState, state;
      rollBackState := Some(newState);
      return Ok(());
    }

    method AcceptChannelRenewal() returns (r: Outcome<Message>)
      modifies this
      ensures Did(r, old(View()), View(), RenewAcceptOf(old(View())))
    {
      if !state.RenewOffered? {
        return Err(BadState);
      }
      var offered, offerNext, ownPayout := state.offered, state.offerNext, state.counterPayout;
      if updateIdx == 0 {
        return Err(Fault);
      }
      var acceptPoint := PointOf(Secret(party, updateIdx - 1));
      var bufferTx := BufferTx(offered.id, offered.terms, offered.total, Other(party), offerNext, acceptPoint);
      state := RenewAccepted(offered, offerNext, acceptPoint, bufferTx, ownPayout);
      return Ok(RenewAccept(acceptPoint, ContractSig(bufferTx, party)));
    }

    method VerifyRenewAcceptAndConfirm(m: Message) returns (r: Outcome<Message>)
      requires m.RenewAccept?
      modifies this
      ensures Did(r, old(View()), View(), RenewConfirmOf(old(View()), m))
    {
      if !state.RenewOffered? {
        return Err(BadState);
      }
      var offered, offerNext := state.offered, state.offerNext;
      if state.counterPayout > offered.total {
        return Err(Fault);
      }
      var ownPayout := offered.total - state.counterPayout;
      var bufferTx := BufferTx(offered.id, offered.terms, offered.total, party, offerNext, m.nextPoint);
      if m.contractSig != ContractSig(bufferTx, Other(party)) {
        return Err(BadProof);
      }
      var ownSig := AdaptorSig(bufferTx, party, PublishKey(Other(party), m.nextPoint));
      state := RenewConfirmed(offered.id, offerNext, m.nextPoint, bufferTx, ownSig, ownPayout, offered.total);
      return Ok(RenewConfirm(ownSig, ContractSig(bufferTx, party)));
    }

    method VerifyRenewConfirmAndFinalize(m: Message, monitor: ChainMonitor) returns (r: Outcome<Message>)
      requires m.RenewConfirm?
      modifies this, monitor
      ensures Did(r, old(View()), View(), RenewFinalizeOf(old(View()), m))
      ensures monitor.Contents() ==
              if r.Ok? then Watching(old(monitor.Contents()), View().state.tx, ChannelInfo(id, WatchedBuffer))
              else old(monitor.Contents())
    {
      if !state.RenewAccepted? {
        return Err(BadState);
      }
      var s := state;
      if m.sig != AdaptorSig(s.tx, Other(party), PublishKey(party, s.acceptPoint)) {
        return Err(BadProof);
      }
      if m.contractSig != ContractSig(s.tx, Other(party)) {
        return Err(BadProof);
      }
      var prevOfferPoint := counterPerUpdatePoint;
      counterPerUpdatePoint := s.offerPoint;
      ownPerUpdatePoint := s.acceptPoint;
      var prevSecret := Secret(party, updateIdx);
      var sig := AdaptorSig(s.tx, party, PublishKey(Other(party), counterPerUpdatePoint));
      monitor.AddTx(s.tx, ChannelInfo(id, WatchedBuffer));
      state := RenewFinalized(s.offered.id, prevOfferPoint, s.tx, m.sig, sig, s.ownPayout,
                              ownCollateral + counterCollateral);
      return Ok(RenewFinalize(prevSecret, sig));
    }

    method RenewChannelOnFinalize(m: Message) returns (r: Outcome<Message>)
      requires m.RenewFinalize?
      modifies this
      ensures Did(r, old(View()), View(), RenewRevokeOf(old(View()), m))
    {
      if !state.RenewConfirmed? {
        return Err(BadState);
      }
      var s := state;
      if m.sig != AdaptorSig(s.tx, Other(party), PublishKey(party, s.offerPoint)) {
        return Err(BadProof);
      }
      if PointOf(m.prevSecret) != counterPerUpdatePoint {
        return Err(BadProof);
      }
      var provided := ProvideSecret(secrets, updateIdx, m.prevSecret);
      if provided.Err? {
        return Err(provided.error);
      }
      if updateIdx == 0 {
        return Err(Fault);
      }
      secrets := provided.value;
      var prevSecret := Secret(party, updateIdx);
      ownPerUpdatePoint := s.offerPoint;
      counterPerUpdatePoint := s.acceptPoint;
      state := Established(s.contract, m.sig, s.ownSig, s.tx, true, s.total);
      rollBackState := None;
      updateIdx := updateIdx - 1;
      return Ok(RenewRevoke(prevSecret));
    }

    method RenewChannelOnRevoke(m: Message) returns (r: Outcome<()>)
      requires m.RenewRevoke?
      modifies this
      ensures DidQuietly(r, old(View()), View(), OnRenewRevoke(old(View()), m))
    {
      if !state.RenewFinalized? {
        return Err(BadState);
      }
      var s := state;
      if PointOf(m.prevSecret) != s.prevOfferPoint {
        return Err(BadProof);
      }
      var provided := ProvideSecret(secrets, updateIdx, m.prevSecret);
      if provided.Err? {
        return Err(provided.error);
      }
      if updateIdx == 0 {
        return Err(Fault);
      }
      secrets := provided.value;
      updateIdx := updateIdx - 1;
      state := Established(s.contract, s.counterSig, s.ownSig, s.tx, true, s.total);
      return Ok(());
    }

    method RejectRenewOffer() returns (r: Outcome<Message>)
      modifies this
      ensures Did(r, old(View()), View(), RejectRenewOf(old(View())))
    {
      if !state.RenewOffered? || state.isOffer {
        return Err(BadState);
      }
      if rollBackState.None? {
        return Err(Fault);
      }
      state := rollBackState.value;
      rollBackState := None;
      return Ok(Reject);
    }

    method OnReject() returns (r: Outcome<()>)
      modifies this
      ensures DidQuietly(r, old(View()), View(), ChannelUpdates.OnReject(old(View())))
    {
      if state.Established? || state.Settled? {
        return Ok(());
      }
      var rollback := false;
      if state.RenewOffered? {
        rollback := state.isOffer;
      }
      if state.SettledOffered? {
        rollback := true;
      }
      if !rollback {
        return Err(BadState);
      }
      if rollBackState.None? {
        return Err(Fault);
      }
      state := rollBackState.value;
      rollBackState := None;
      return Ok(());
    }

    method OfferCollaborativeClose(counterPayout: nat) returns (r: Outcome<Message>)
      modifies this
      ensures Did(r, old(View()), View(), CloseOfferOf(old(View()), counterPayout))
    {
      var totalCollateral := ownCollateral + counterCollateral;
      if counterPayout > totalCollateral {
        return Err(BadOffer);
      }
      var closeTx := CloseTx(party, totalCollateral - counterPayout, counterPayout);
      var newState := CloseOffered(counterPayout, closeTx, true);
      newState, state := state, newState;
      rollBackState := Some(newState);
      return Ok(CloseOffer(counterPayout));
    }

    method OnCollaborativeCloseOffer(m: Message) returns (r: Outcome<()>)
      requires m.CloseOffer?
      modifies this
      ensures DidQuietly(r, old(View()), View(), OnCloseOffer(old(View()), m))
    {
      var totalCollateral := ownCollateral + counterCollateral;
      if m.counterPayout > totalCollateral {
        return Err(BadOffer);
      }
      if rollBackState.Some? {
        return Err(BadState);
      }
      var closeTx := CloseTx(Other(party), totalCollateral - m.counterPayout, m.counterPayout);
      var newState := CloseOffered(m.counterPayout, closeTx, false);
      newState, state := state, newState;
      rollBackState := Some(newState);
      return Ok(());
    }
  }
}
