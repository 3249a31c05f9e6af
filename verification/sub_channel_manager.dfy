/** The handlers of dlc-manager/src/sub_channel_manager.rs in place on the stored
    sub channel, the Lightning channel and the list of pending actions. */
module SubChannelManagement {

  import opened Results
  import opened ChannelTypes
  import opened SubChannels

  /** The handler did what the step says, or failed as it says and left everything alone. */
  predicate Handled(r: Outcome<Option<SubMessage>>, before: SubNode, after: SubNode, step: SubStep) {
    match step
    case Ok((node, reply)) => r == Ok(reply) && after == node
    case Err(e) => r == Err(e) && after == before
  }

  class SubChannelManager {
    const party: Party
    var stored: Option<SubChannel>
    var ln: Ln
    var actions: seq<Action>

    function State(): SubNode
      reads this
    {
      SubNode(party, stored, ln, actions)
    }

    constructor (party: Party, ln: Ln)
      ensures State() == SubNode(party, None, ln, [])
    {
      this.party := party;
      this.stored := None;
      this.ln := ln;
      this.actions := [];
    }

    method OfferSubChannel(terms: Terms) returns (r: Outcome<Option<SubMessage>>)
      modifies this`stored
      ensures Handled(r, old(State()), State(), SubChannels.OfferSubChannel(old(State()), terms))
    {
      var isNew := stored.None?;
      if !isNew {
        var s := stored.value;
        if !s.state.OffChainClosed? && !s.state.Rejected? {
          return Err(BadState);
        }
        if s.updateIdx == 0 {
          return Err(Fault);
        }
      }
      var valid := ValidateLnValues(ln, terms, true);
      if valid.Err? {
        return Err(valid.error);
      }
      if !isNew && !stored.value.hasSeed {
        return Err(Fault);
      }
      var updateIdx := if isNew then INITIAL_UPDATE_NUMBER else stored.value.updateIdx - 1;
      var nextPerSplitPoint := PointOf(Secret(party, updateIdx));
      var offered := Offered(nextPerSplitPoint, terms);
      if isNew {
        stored := Some(SubChannel(updateIdx, offered, true, true, terms.fee, ln.value, map[]));
      } else {
        stored := Some(stored.value.(state := offered, isOffer := true, updateIdx := updateIdx));
      }
      return Ok(Some(Offer(nextPerSplitPoint, terms)));
    }

    method OnSubChannelOffer(m: SubMessage) returns (r: Outcome<Option<SubMessage>>)
      requires m.Offer?
      modifies this`stored
      ensures Handled(r, old(State()), State(), OnOffer(old(State()), m))
    {
      var isNew := stored.None?;
      if !isNew {
        var s := stored.value;
        if !s.state.OffChainClosed? && !s.state.Rejected? {
          return Err(BadState);
        }
        if s.updateIdx == 0 {
          return Err(Fault);
        }
      }
      var valid := ValidateLnValues(ln, m.terms, false);
      if valid.Err? {
        return Err(valid.error);
      }
      var offered := Offered(m.point, m.terms);
      if isNew {
        stored := Some(SubChannel(INITIAL_UPDATE_NUMBER, offered, false, false, m.terms.fee, ln.value, map[]));
      } else {
        stored := Some(stored.value.(state := offered, isOffer := false, updateIdx := stored.value.updateIdx - 1));
      }
      return Ok(None);
    }

    method AcceptSubChannel() returns (r: Outcome<Option<SubMessage>>)
      modifies this`stored, this`ln
      ensures Handled(r, old(State()), State(), SubChannels.AcceptSubChannel(old(State())))
    {
      if stored.None? || !stored.value.state.Offered? {
        return Err(BadState);
      }
      var s := stored.value;
      var nextPerSplitPoint := PointOf(Secret(party, s.updateIdx));
      var valid := ValidateLnValues(ln, s.state.terms, false);
      if valid.Err? {
        return Err(valid.error);
      }
      var splitTx := SplitTx(s.state.point, nextPerSplitPoint, s.state.terms);
      var rollBack := ln;
      ln := Ln(Glue(splitTx), GlueValue(ln, s.state.terms, false), valid.value.0);
      stored := Some(s.(hasSeed := true, state := Accepted(s.state.point, nextPerSplitPoint, splitTx, rollBack)));
      return Ok(Some(Accept(nextPerSplitPoint, ln)));
    }

    method OnSubChannelAccept(m: SubMessage) returns (r: Outcome<Option<SubMessage>>)
      requires m.Accept?
      modifies this`stored, this`ln
      ensures Handled(r, old(State()), State(), OnAccept(old(State()), m))
    {
      if stored.None? || !stored.value.state.Offered? {
        return Err(BadState);
      }
      var s := stored.value;
      var valid := ValidateLnValues(ln, s.state.terms, true);
      if valid.Err? {
        return Err(valid.error);
      }
      var splitTx := SplitTx(s.state.point, m.point, s.state.terms);
      var updated := Ln(Glue(splitTx), GlueValue(ln, s.state.terms, true), valid.value.0);
      if !SameLn(updated, m.commitment) {
        return Err(BadProof);
      }
      var rollBack := ln;
      ln := updated;
      stored := Some(s.(state := Confirmed(s.state.point, m.point, splitTx, rollBack)));
      return Ok(Some(Confirm(ln)));
    }

    method OnSubChannelConfirm(m: SubMessage) returns (r: Outcome<Option<SubMessage>>)
      requires m.Confirm?
      modifies this`stored
      ensures Handled(r, old(State()), State(), OnConfirm(old(State()), m))
    {
      if stored.None? || !stored.value.state.Accepted? {
        return Err(BadState);
      }
      if !SameLn(ln, m.commitment) {
        return Err(BadProof);
      }
      var s := stored.value.state;
      var signed := Signed(s.acceptPoint, s.offerPoint, s.split, s.rollBack, None);
      stored := Some(stored.value.(state := Finalized(signed)));
      return Ok(Some(Finalize));
    }

    method OnSubChannelFinalize() returns (r: Outcome<Option<SubMessage>>)
      modifies this`stored
      ensures Handled(r, old(State()), State(), OnFinalize(old(State())))
    {
      if stored.None? || !stored.value.state.Confirmed? {
        return Err(BadState);
      }
      var s := stored.value.state;
      var signed := Signed(s.ownPoint, s.counterPoint, s.split, s.rollBack, None);
      stored := Some(stored.value.(state := SignedState(signed)));
      return Ok(Some(Revoke));
    }

    method MarkChannelSigned() returns (r: Outcome<()>)
      modifies this`stored
      ensures match MarkSigned(old(State()))
              case Ok(n) => r == Ok(()) && State() == n
              case Err(e) => r == Err(e) && State() == old(State())
    {
      if stored.None? || !stored.value.state.Finalized? {
        return Err(BadState);
      }
      stored := Some(stored.value.(state := SignedState(stored.value.state.signed)));
      return Ok(());
    }

    method OnSubChannelRevoke() returns (r: Outcome<Option<SubMessage>>)
      modifies this`stored
      ensures Handled(r, old(State()), State(), OnRevoke(old(State())))
    {
      var done := MarkChannelSigned();
      if done.Err? {
        return Err(done.error);
      }
      return Ok(None);
    }

    method RejectSubChannelOffer() returns (r: Outcome<Option<SubMessage>>)
      modifies this`stored
      ensures Handled(r, old(State()), State(), RejectSubChannel(old(State())))
    {
      if stored.None? || !stored.value.state.Offered? {
        return Err(BadState);
      }
      stored := Some(stored.value.(state := Rejected));
      return Ok(Some(RejectOffer));
    }

    method RejectSubChannelCloseOffer() returns (r: Outcome<Option<SubMessage>>)
      modifies this`stored
      ensures Handled(r, old(State()), State(), RejectClose(old(State())))
    {
      if stored.None? || !stored.value.state.CloseOffered? {
        return Err(BadState);
      }
      stored := Some(stored.value.(state := SignedState(stored.value.state.signed)));
      return Ok(Some(RejectOffer));
    }

    method OnSubChannelReject() returns (r: Outcome<Option<SubMessage>>)
      modifies this`stored
      ensures Handled(r, old(State()), State(), OnRejectOffer(old(State())))
    {
      if stored.None? {
        return Err(BadOffer);
      }
      var s := stored.value;
      match s.state {
        case Offered(_, _) => stored := Some(s.(state := Rejected));
        case CloseOffered(signed, _, _, _) => stored := Some(s.(state := SignedState(signed)));
        case _ => return Err(BadOffer);
      }
      return Ok(None);
    }

    method OfferSubChannelClose(acceptBalance: nat) returns (r: Outcome<Option<SubMessage>>)
      modifies this`stored
      ensures Handled(r, old(State()), State(), OfferClose(old(State()), acceptBalance))
    {
      if stored.None? || !stored.value.state.SignedState? {
        return Err(BadState);
      }
      var signed := stored.value.state.signed;
      var offerBalance := 0;
      if signed.payouts.None? {
        var totalCollateral := Stake(signed.split.terms);
        if totalCollateral < acceptBalance {
          return Err(BadOffer);
        }
        offerBalance := totalCollateral - acceptBalance;
      } else {
        var (ownPayout, counterPayout) := signed.payouts.value;
        if acceptBalance != counterPayout {
          return Err(BadOffer);
        }
        offerBalance := ownPayout;
      }
      stored := Some(stored.value.(state := SubState.CloseOffered(signed, offerBalance, acceptBalance, true)));
      return Ok(Some(SubMessage.CloseOffer(acceptBalance)));
    }

    method OnSubChannelCloseOffer(m: SubMessage) returns (r: Outcome<Option<SubMessage>>)
      requires m.CloseOffer?
      modifies this`stored
      ensures Handled(r, old(State()), State(), OnCloseOffer(old(State()), m))
    {
      if stored.None? || !stored.value.state.SignedState? {
        return Err(BadState);
      }
      var signed := stored.value.state.signed;
      var offerBalance := 0;
      if signed.payouts.None? {
        var totalCollateral := Stake(signed.split.terms);
        if totalCollateral < m.acceptBalance {
          return Err(BadOffer);
        }
        offerBalance := totalCollateral - m.acceptBalance;
      } else {
        var (ownPayout, counterPayout) := signed.payouts.value;
        if m.acceptBalance != ownPayout {
          return Err(BadOffer);
        }
        offerBalance := counterPayout;
      }
      stored := Some(stored.value.(state := SubState.CloseOffered(signed, offerBalance, m.acceptBalance, false)));
      return Ok(None);
    }

    method AcceptSubChannelCloseOffer() returns (r: Outcome<Option<SubMessage>>)
      modifies this`stored, this`ln
      ensures Handled(r, old(State()), State(), AcceptClose(old(State())))
    {
      if stored.None? || !stored.value.state.CloseOffered? {
        return Err(BadState);
      }
      var s := stored.value.state;
      if s.isOffer {
        return Err(BadOffer);
      }
      var (_, acceptFees) := PerPartyFee(stored.value.fee);
      var lnOwnBalance := ln.own + acceptFees * 1000 + s.acceptBalance * 1000;
      var rollBack := ln;
      ln := Ln(Original, stored.value.fundValue, lnOwnBalance);
      stored := Some(stored.value.(state := CloseAccepted(s.signed, s.acceptBalance, s.offerBalance, rollBack)));
      return Ok(Some(CloseAccept(ln)));
    }

    method OnSubChannelCloseAccept(m: SubMessage) returns (r: Outcome<Option<SubMessage>>)
      requires m.CloseAccept?
      modifies this`stored, this`ln
      ensures Handled(r, old(State()), State(), OnCloseAccept(old(State()), m))
    {
      if stored.None? || !stored.value.state.CloseOffered? {
        return Err(BadState);
      }
      var s := stored.value.state;
      var (offerFees, _) := PerPartyFee(stored.value.fee);
      var lnOwnBalance := ln.own + offerFees * 1000 + s.offerBalance * 1000;
      var updated := Ln(Original, stored.value.fundValue, lnOwnBalance);
      if !SameLn(updated, m.commitment) {
        return Err(BadProof);
      }
      var perSplitSecret := Secret(party, stored.value.updateIdx);
      var rollBack := ln;
      ln := updated;
      stored := Some(stored.value.(state := CloseConfirmed(s.signed, s.offerBalance, s.acceptBalance, rollBack, true)));
      return Ok(Some(CloseConfirm(perSplitSecret, ln)));
    }

    method OnSubChannelCloseConfirm(m: SubMessage) returns (r: Outcome<Option<SubMessage>>)
      requires m.CloseConfirm?
      modifies this`stored
      ensures Handled(r, old(State()), State(), OnCloseConfirm(old(State()), m))
    {
      if stored.None? || !stored.value.state.CloseAccepted? {
        return Err(BadState);
      }
      var s := stored.value;
      if PointOf(m.secret) != s.state.signed.counterPoint {
        return Err(BadProof);
      }
      var provided := ProvideSecret(s.secrets, s.updateIdx, m.secret);
      if provided.Err? {
        return Err(provided.error);
      }
      if !SameLn(ln, m.commitment) {
        return Err(BadProof);
      }
      var perSplitSecret := Secret(party, s.updateIdx);
      stored := Some(s.(secrets := provided.value, state := OffChainClosed));
      return Ok(Some(CloseFinalize(perSplitSecret, true)));
    }

    method OnSubChannelCloseFinalize(m: SubMessage) returns (r: Outcome<Option<SubMessage>>)
      requires m.CloseFinalize?
      modifies this`stored
      ensures Handled(r, old(State()), State(), OnCloseFinalize(old(State()), m))
    {
      if stored.None? || !stored.value.state.CloseConfirmed? {
        return Err(BadState);
      }
      var s := stored.value;
      if PointOf(m.secret) != s.state.signed.counterPoint {
        return Err(BadProof);
      }
      var provided := ProvideSecret(s.secrets, s.updateIdx, m.secret);
      if provided.Err? {
        return Err(provided.error);
      }
      if s.state.checkLnSecret && !m.withCommitmentSecret {
        return Err(BadProof);
      }
      stored := Some(s.(secrets := provided.value, state := OffChainClosed));
      return Ok(None);
    }

    method GetReconnectCloseFinalize(restoreIndex: bool) returns (r: Outcome<Secret>)
      requires stored.Some?
      ensures r == if stored.value.hasSeed then Ok(ReconnectSecret(State(), restoreIndex)) else Err(Fault)
    {
      if !stored.value.hasSeed {
        return Err(Fault);
      }
      var updateIndex := stored.value.updateIdx;
      if restoreIndex {
        updateIndex := updateIndex + 1;
      }
      return Ok(Secret(party, updateIndex));
    }

    /** Called with the state that the peer reports of itself. */
    method OnChannelReestablish(peerState: Option<Flag>) returns (r: Outcome<()>)
      modifies this
      ensures match Reestablish(old(State()), peerState)
              case Ok(n) => r == Ok(()) && State() == n
              case Err(e) => r == Err(e) && State() == old(State())
    {
      if stored.None? {
        return Ok(());
      }
      var s := stored.value;
      var updatedState: Option<SubState> := None;
      match s.state {
        case Offered(point, terms) =>
          if s.isOffer {
            var hasNotReceived := peerState == None || peerState == Some(FlagOffChainClosed);
            if peerState == Some(FlagCloseConfirmed) {
              var finalize := GetReconnectCloseFinalize(true);
              if finalize.Err? {
                return Err(finalize.error);
              }
              actions := actions + [ResendCloseFinalize(finalize.value)];
              hasNotReceived := true;
            }
            if hasNotReceived {
              actions := actions + [ResendOffer(point, terms)];
            }
          }
        case Accepted(offerPoint, _, split, rollBack) =>
          actions := actions + [ReAccept];
          ln := rollBack;
          updatedState := Some(Offered(offerPoint, split.terms));
        case Confirmed(ownPoint, _, split, rollBack) =>
          ln := rollBack;
          updatedState := Some(Offered(ownPoint, split.terms));
        case Finalized(signed) =>
          if peerState.Some? {
            if peerState == Some(FlagSigned) {
              actions := actions + [ForceSign];
            } else {
              actions := actions + [ReAccept];
              ln := signed.rollBack;
              updatedState := Some(Offered(signed.counterPoint, signed.split.terms));
            }
          }
        case CloseOffered(_, _, acceptBalance, isOffer) =>
          if isOffer && peerState == Some(FlagSigned) {
            actions := actions + [ResendCloseOffer(acceptBalance)];
          }
        case CloseAccepted(signed, ownBalance, counterBalance, rollBack) =>
          ln := rollBack;
          actions := actions + [ReAcceptCloseOffer(ownBalance)];
          updatedState := Some(SubState.CloseOffered(signed, counterBalance, ownBalance, false));
        case CloseConfirmed(signed, ownBalance, counterBalance, rollBack, _) =>
          if peerState.Some? {
            if peerState == Some(FlagCloseAccepted) {
              ln := rollBack;
              updatedState := Some(SubState.CloseOffered(signed, ownBalance, counterBalance, true));
            } else {
              updatedState := Some(s.state.(checkLnSecret := false));
            }
          }
        case OffChainClosed =>
          if peerState.Some? {
            var finalize := GetReconnectCloseFinalize(false);
            if finalize.Err? {
              return Err(finalize.error);
            }
            if peerState == Some(FlagCloseConfirmed) {
              actions := actions + [ResendCloseFinalize(finalize.value)];
            }
          }
        case _ =>
      }
      if updatedState.Some? {
        stored := Some(s.(state := updatedState.value));
      }
      return Ok(());
    }

    /** Performs one pending action, unless it has to wait. */
    method PerformAction(action: Action, usable: bool) returns (messages: seq<SubMessage>, retained: bool)
      modifies this`stored, this`ln
      ensures State() == Perform(old(State()), action, usable).0
      ensures messages == Perform(old(State()), action, usable).1
      ensures retained == Perform(old(State()), action, usable).2
    {
      messages, retained := [], false;
      match action {
        case ResendOffer(point, terms) => messages := [Offer(point, terms)];
        case ReAccept =>
          retained := true;
          if usable {
            var accepted := AcceptSubChannel();
            if accepted.Ok? {
              messages := if accepted.value.Some? then [accepted.value.value] else [];
              retained := false;
            }
          }
        case ForceSign =>
          retained := true;
          if usable {
            var marked := MarkChannelSigned();
            retained := marked.Err?;
          }
        case ResendCloseOffer(acceptBalance) => messages := [SubMessage.CloseOffer(acceptBalance)];
        case ReAcceptCloseOffer(_) =>
          retained := true;
          if usable {
            var accepted := AcceptSubChannelCloseOffer();
            if accepted.Ok? {
              messages := if accepted.value.Some? then [accepted.value.value] else [];
              retained := false;
            }
          }
        case ResendCloseFinalize(secret) => messages := [CloseFinalize(secret, false)];
      }
    }

    /** Performs the pending actions in turn; those that have to wait are kept. */
    method ProcessActions(usable: bool) returns (messages: seq<SubMessage>)
      modifies this
      ensures State() == SubChannels.ProcessActions(old(State()), usable).0
      ensures messages == SubChannels.ProcessActions(old(State()), usable).1
    {
      var pending := actions;
      var retain: seq<Action> := [];
      messages := [];
      actions := [];
      ghost var start := State();
      for i := 0 to |pending|
        invariant actions == []
        invariant State() == PerformAll(start, pending, i, usable).0
        invariant messages == PerformAll(start, pending, i, usable).1
        invariant retain == PerformAll(start, pending, i, usable).2
      {
        var more, retained := PerformAction(pending[i], usable);
        messages := messages + more;
        if retained {
          retain := retain + [pending[i]];
        }
      }
      actions := retain;
    }
  }
}
