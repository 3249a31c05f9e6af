/** The handlers of dlc-manager/src/manager.rs in place: each works on a copy of
    the stored channel that replaces it only when everything succeeded. */
module ChannelManager {

  import opened Results
  import opened ChannelTypes
  import opened ChannelUpdates
  import opened ChainMonitoring
  import opened SignedChannels
  import opened ChannelHandlers

  /** The handler did what the step says, or failed as it says and left everything alone. */
  predicate Handled(r: Outcome<Option<Message>>, before: Node, after: Node, step: Step) {
    match step
    case Ok((node, reply)) => r == Ok(reply) && after == node
    case Err(e) => r == Err(e) && after == before
  }

  /** The same for a settlement, which looks up the contract it closes last of all: if
      the store does not have it, the handler fails with the watch entry already made. */
  predicate HandledSettlement(contractFound: bool, r: Outcome<Option<Message>>, before: Node, after: Node, step: Step) {
    if contractFound || step.Err? then Handled(r, before, after, step)
    else r == Err(BadState) && after == before.(watches := step.value.0.watches)
  }

  /** And for a renewal, which looks it up before anything else is done. */
  predicate HandledRenewal(contractFound: bool, r: Outcome<Option<Message>>, before: Node, after: Node, step: Step) {
    var c := before.channel;
    var renewing := c.state.RenewAccepted? || c.state.RenewConfirmed?;
    var closes := renewing && c.rollBack.Some? && c.rollBack.value.Established?;
    if closes && !contractFound then r == Err(BadState) && after == before
    else Handled(r, before, after, step)
  }

  class Manager {
    var stored: Channel
    const monitor: ChainMonitor
    var closed: seq<ClosedContract>

    function State(): Node
      reads this, monitor
    {
      Node(stored, monitor.Contents(), closed)
    }

    constructor (c: Channel)
      ensures fresh(monitor)
      ensures State() == Node(c, Watches(map[], map[]), [])
    {
      stored := c;
      monitor := new ChainMonitor();
      closed := [];
    }

    method OfferSettle(counterPayout: nat) returns (r: Outcome<Option<Message>>)
      modifies this
      ensures Handled(r, old(State()), State(), Act(old(State()), Action.OfferSettle(counterPayout)))
    {
      var channel := new SignedChannel(stored);
      var done := channel.SettleChannelOffer(counterPayout);
      if done.Err? {
        return Err(done.error);
      }
      stored := channel.View();
      return Ok(Some(done.value));
    }

    method AcceptSettle() returns (r: Outcome<Option<Message>>)
      modifies this, monitor
      ensures Handled(r, old(State()), State(), Act(old(State()), Action.AcceptSettle))
    {
      var channel := new SignedChannel(stored);
      var done := channel.SettleChannelAccept(monitor);
      if done.Err? {
        return Err(done.error);
      }
      stored := channel.View();
      return Ok(Some(done.value));
    }

    method RejectSettle() returns (r: Outcome<Option<Message>>)
      modifies this
      ensures Handled(r, old(State()), State(), Act(old(State()), Action.RejectSettle))
    {
      var channel := new SignedChannel(stored);
      var done := channel.RejectSettleOffer();
      if done.Err? {
        return Err(done.error);
      }
      stored := channel.View();
      return Ok(Some(done.value));
    }

    method OfferRenew(input: ContractInput, counterPayout: nat) returns (r: Outcome<Option<Message>>)
      modifies this
      ensures Handled(r, old(State()), State(), Act(old(State()), Action.OfferRenew(input, counterPayout)))
    {
      var channel := new SignedChannel(stored);
      var done := channel.RenewOffer(input, counterPayout);
      if done.Err? {
        return Err(done.error);
      }
      stored := channel.View();
      return Ok(Some(done.value));
    }

    method AcceptRenew() returns (r: Outcome<Option<Message>>)
      modifies this
      ensures Handled(r, old(State()), State(), Act(old(State()), Action.AcceptRenew))
    {
      var channel := new SignedChannel(stored);
      var done := channel.AcceptChannelRenewal();
      if done.Err? {
        return Err(done.error);
      }
      stored := channel.View();
      return Ok(Some(done.value));
    }

    method RejectRenew() returns (r: Outcome<Option<Message>>)
      modifies this
      ensures Handled(r, old(State()), State(), Act(old(State()), Action.RejectRenew))
    {
      var channel := new SignedChannel(stored);
      var done := channel.RejectRenewOffer();
      if done.Err? {
        return Err(done.error);
      }
      stored := channel.View();
      return Ok(Some(done.value));
    }

    method OfferClose(counterPayout: nat) returns (r: Outcome<Option<Message>>)
      modifies this, monitor
      ensures Handled(r, old(State()), State(), Act(old(State()), Action.OfferClose(counterPayout)))
    {
      var channel := new SignedChannel(stored);
      var done := channel.OfferCollaborativeClose(counterPayout);
      if done.Err? {
        return Err(done.error);
      }
      monitor.AddTx(channel.state.tx, ChannelInfo(channel.id, CollaborativeClose));
      stored := channel.View();
      return Ok(Some(done.value));
    }

    method OnSettleOffer(m: Message) returns (r: Outcome<Option<Message>>)
      requires m.SettleOffer?
      modifies this
      ensures Handled(r, old(State()), State(), Receive(old(State()), m))
    {
      var channel := new SignedChannel(stored);
      if channel.state.SettledOffered? {
        return Ok(Some(Reject));
      }
      var done := channel.OnSettleOffer(m);
      if done.Err? {
        return Err(done.error);
      }
      stored := channel.View();
      return Ok(None);
    }

    method OnSettleAccept(m: Message) returns (r: Outcome<Option<Message>>)
      requires m.SettleAccept?
      modifies this, monitor
      ensures Handled(r, old(State()), State(), Receive(old(State()), m))
    {
      var channel := new SignedChannel(stored);
      var done := channel.SettleChannelConfirm(m, monitor);
      if done.Err? {
        return Err(done.error);
      }
      stored := channel.View();
      return Ok(Some(done.value));
    }

    method OnSettleConfirm(m: Message, contractFound: bool) returns (r: Outcome<Option<Message>>)
      requires m.SettleConfirm?
      modifies this, monitor
      ensures HandledSettlement(contractFound, r, old(State()), State(), Receive(old(State()), m))
    {
      var channel := new SignedChannel(stored);
      if !channel.state.SettledAccepted? || channel.rollBackState.None? || !channel.rollBackState.value.Established? {
        return Err(BadState);
      }
      var ownPayout := channel.state.ownPayout;
      var previous := channel.rollBackState.value;
      var done := channel.SettleChannelFinalize(m);
      if done.Err? {
        return Err(done.error);
      }
      monitor.AddTx(previous.tx, ChannelInfo(channel.id,
        Revoked(channel.updateIdx + 1, previous.ownSig, previous.isOffer, RevokedBuffer)));
      if !contractFound {
        return Err(BadState);
      }
      closed := closed + [ClosedContractOf(stored, previous.contract, ownPayout, true)];
      stored := channel.View();
      return Ok(Some(done.value));
    }

    method OnSettleFinalize(m: Message, contractFound: bool) returns (r: Outcome<Option<Message>>)
      requires m.SettleFinalize?
      modifies this, monitor
      ensures HandledSettlement(contractFound, r, old(State()), State(), Receive(old(State()), m))
    {
      var channel := new SignedChannel(stored);
      if !channel.state.SettledConfirmed? || channel.rollBackState.None? || !channel.rollBackState.value.Established? {
        return Err(BadState);
      }
      var ownPayout := channel.state.ownPayout;
      var previous := channel.rollBackState.value;
      var done := channel.SettleChannelOnFinalize(m);
      if done.Err? {
        return Err(done.error);
      }
      monitor.AddTx(previous.tx, ChannelInfo(channel.id,
        Revoked(channel.updateIdx + 1, previous.ownSig, previous.isOffer, RevokedBuffer)));
      if !contractFound {
        return Err(BadState);
      }
      closed := closed + [ClosedContractOf(stored, previous.contract, ownPayout, true)];
      stored := channel.View();
      return Ok(None);
    }

    method OnRenewOffer(m: Message) returns (r: Outcome<Option<Message>>)
      requires m.RenewOffer?
      modifies this
      ensures Handled(r, old(State()), State(), Receive(old(State()), m))
    {
      var channel := new SignedChannel(stored);
      if channel.state.RenewOffered? {
        if channel.state.isOffer {
          return Ok(Some(Reject));
        }
      }
      var done := channel.OnRenewOffer(m);
      if done.Err? {
        return Err(done.error);
      }
      stored := channel.View();
      return Ok(None);
    }

    method OnRenewAccept(m: Message) returns (r: Outcome<Option<Message>>)
      requires m.RenewAccept?
      modifies this
      ensures Handled(r, old(State()), State(), Receive(old(State()), m))
    {
      var channel := new SignedChannel(stored);
      var done := channel.VerifyRenewAcceptAndConfirm(m);
      if done.Err? {
        return Err(done.error);
      }
      stored := channel.View();
      return Ok(Some(done.value));
    }

    method OnRenewConfirm(m: Message, contractFound: bool) returns (r: Outcome<Option<Message>>)
      requires m.RenewConfirm?
      modifies this, monitor
      ensures HandledRenewal(contractFound, r, old(State()), State(), Receive(old(State()), m))
    {
      var channel := new SignedChannel(stored);
      if !channel.state.RenewAccepted? {
        return Err(BadState);
      }
      var ownPayout := channel.state.ownPayout;
      if channel.rollBackState.None? {
        return Err(Fault);
      }
      var previous := channel.rollBackState.value;
      var txType;
      var nowClosed := closed;
      match previous {
        case Established(_, _, _, _, _, _) =>
          if !contractFound {
            return Err(BadState);
          }
          nowClosed := closed + [ClosedContractOf(stored, previous.contract, ownPayout, true)];
          txType := Revoked(channel.updateIdx, previous.ownSig, false, RevokedBuffer);
        case Settled(_, _, _, _, _) =>
          txType := Revoked(channel.updateIdx, previous.ownSig, false, RevokedSettle);
        case _ =>
          return Err(BadState);
      }
      var done := channel.VerifyRenewConfirmAndFinalize(m, monitor);
      if done.Err? {
        return Err(done.error);
      }
      monitor.AddTx(previous.tx, ChannelInfo(channel.id, txType));
      stored := channel.View();
      closed := nowClosed;
      return Ok(Some(done.value));
    }

    method OnRenewFinalize(m: Message, contractFound: bool) returns (r: Outcome<Option<Message>>)
      requires m.RenewFinalize?
      modifies this, monitor
      ensures HandledRenewal(contractFound, r, old(State()), State(), Receive(old(State()), m))
    {
      var channel := new SignedChannel(stored);
      if !channel.state.RenewConfirmed? {
        return Err(BadState);
      }
      var ownPayout := channel.state.ownPayout;
      if channel.rollBackState.None? {
        return Err(Fault);
      }
      var previous := channel.rollBackState.value;
      var txType;
      var nowClosed := closed;
      match previous {
        case Established(_, _, _, _, _, _) =>
          if !contractFound {
            return Err(BadState);
          }
          nowClosed := closed + [ClosedContractOf(stored, previous.contract, ownPayout, true)];
          txType := Revoked(channel.updateIdx, previous.ownSig, false, RevokedBuffer);
        case Settled(_, _, _, _, _) =>
          txType := Revoked(channel.updateIdx, previous.ownSig, false, RevokedSettle);
        case _ =>
          return Err(BadState);
      }
      var done := channel.RenewChannelOnFinalize(m);
      if done.Err? {
        return Err(done.error);
      }
      monitor.AddTx(previous.tx, ChannelInfo(channel.id, txType));
      monitor.AddTx(channel.state.tx, ChannelInfo(channel.id, WatchedBuffer));
      stored := channel.View();
      closed := nowClosed;
      return Ok(Some(done.value));
    }

    method OnRenewRevoke(m: Message) returns (r: Outcome<Option<Message>>)
      requires m.RenewRevoke?
      modifies this
      ensures Handled(r, old(State()), State(), Receive(old(State()), m))
    {
      var channel := new SignedChannel(stored);
      var done := channel.RenewChannelOnRevoke(m);
      if done.Err? {
        return Err(done.error);
      }
      stored := channel.View();
      return Ok(None);
    }

    method OnCollaborativeCloseOffer(m: Message) returns (r: Outcome<Option<Message>>)
      requires m.CloseOffer?
      modifies this
      ensures Handled(r, old(State()), State(), Receive(old(State()), m))
    {
      var channel := new SignedChannel(stored);
      var done := channel.OnCollaborativeCloseOffer(m);
      if done.Err? {
        return Err(done.error);
      }
      stored := channel.View();
      return Ok(None);
    }

    method OnReject() returns (r: Outcome<Option<Message>>)
      modifies this
      ensures Handled(r, old(State()), State(), Receive(old(State()), Reject))
    {
      var channel := new SignedChannel(stored);
      var done := channel.OnReject();
      if done.Err? {
        return Err(done.error);
      }
      stored := channel.View();
      return Ok(None);
    }

    /** Broadcasts the transaction of the current state, or else of the state
        before the negotiation. */
    method ForceCloseChannel() returns (r: Outcome<Broadcast>)
      modifies this, monitor
      ensures r == ForceClose(old(stored), SettlementKnown(old(monitor.Contents()), old(stored).id))
      ensures r.Err? ==> State() == old(State())
      ensures r.Ok? ==> closed == old(closed)
      ensures r.Ok? && !r.value.from.Settled? ==>
                stored.state.Closing? && stored.state.tx == r.value.tx
                && monitor.Contents() == NotWatching(old(monitor.Contents()), r.value.tx)
      ensures r.Ok? && r.value.from.Settled? ==>
                stored.state.SettledClosing? && stored.state.tx == r.value.tx
                && monitor.Contents() == Cleanup(old(monitor.Contents()), old(stored).id)
    {
      var isSettleOffer := monitor.DidWeOfferLastChannelSettlement(stored.id);
      var c := stored;
      r := ForceClose(c, isSettleOffer.Some?);
      if r.Ok? {
        var rollBack := if r.value.rollBacks > 0 then None else c.rollBack;
        if r.value.from.Settled? {
          stored := c.(state := SettledClosing(r.value.tx, isSettleOffer.value, true), rollBack := rollBack);
          monitor.CleanupChannel(c.id);
        } else {
          stored := c.(state := Closing(r.value.tx, r.value.from.contract, true), rollBack := rollBack);
          monitor.RemoveTx(r.value.tx);
        }
      }
    }
  }
}
