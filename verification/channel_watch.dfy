/** Which transactions a party has signed for its peer over whole runs, and which of
    them it watches for. */
module ChannelWatch {

  import opened Results
  import opened ChannelTypes
  import opened ChannelUpdates
  import opened ChainMonitoring
  import opened ChannelHandlers
  import opened ChannelParty
  import opened ChannelRuns

  /** The transactions whose own signature goes out with a message. */
  function SignedIn(c: Channel, m: Option<Message>): set<Tx> {
    if m.None? then {}
    else
      match m.value
      case SettleAccept(_, sig) => {sig.tx}
      case SettleConfirm(_, sig) => {sig.tx}
      case RenewConfirm(sig, _) => {sig.tx}
      case RenewFinalize(_, sig) => {sig.tx}
      case CloseOffer(_) => if c.state.CloseOffered? then {c.state.tx} else {}
      case _ => {}
  }

  function SignedAt(n: Node, e: Event): set<Tx> {
    if StepOf(n, e).Err? then {}
    else SignedIn(StepOf(n, e).value.0.channel, StepOf(n, e).value.1)
  }

  /** All that the party has signed in a run, the transaction of the new channel included. */
  function SignedBy(n: Node, events: seq<Event>): set<Tx>
    requires n.channel.state.Established?
  {
    if events == [] then {n.channel.state.tx}
    else
      var before := events[..|events| - 1];
      SignedBy(n, before) + SignedAt(Play(NewRun(n), before).node, events[|events| - 1])
  }

  predicate Watched(c: Channel, w: Watches, tx: Tx) {
    tx in w.txs && w.txs[tx].info.channelId == c.id
  }

  ghost predicate GivenUp(superseded: seq<Superseded>, tx: Tx) {
    exists s :: s in superseded && s.tx == tx
  }

  /** A transaction that the peer can complete and that is to become the current one,
      or to close the channel. */
  predicate Pending(c: Channel, tx: Tx) {
    && (c.state.SettledAccepted? || c.state.SettledConfirmed? || c.state.RenewConfirmed?
        || (c.state.CloseOffered? && c.state.isOffer))
    && tx == c.state.tx
  }

  /** The pending transaction that is not watched. */
  predicate Unwatched(c: Channel, tx: Tx) {
    c.state.RenewConfirmed? && tx == c.state.tx
  }

  /** What may be watched for the channel. */
  predicate Known(c: Channel, tx: Tx) {
    || tx.CloseTx? || OwnPointIn(tx, c.party).idx >= PointIdx(c)
    || ((c.state.SettledAccepted? || c.state.SettledConfirmed?) && tx == c.state.tx)
  }

  ghost predicate SignedOk(run: Run, signed: set<Tx>, tx: Tx) {
    var c := run.node.channel;
    && (tx in signed <==> GivenUp(run.superseded, tx) || Some(tx) == Commitment(c) || Pending(c, tx))
    && (Watched(c, run.node.watches, tx) ==> Known(c, tx))
    && (Pending(c, tx) && !Unwatched(c, tx) ==> Watched(c, run.node.watches, tx))
  }

  // ---- One step ----

  /** What a step makes of a transaction that is pending or signed with it. */
  predicate Tracks(n: Node, n': Node, reply: Option<Message>, tx: Tx) {
    var c, c' := n.channel, n'.channel;
    && (tx in SignedIn(c', reply) || Pending(c, tx) <==>
        Pending(c', tx) || (Commitment(c') != Commitment(c) && Some(tx) == Commitment(c')))
    && (Watched(c', n'.watches, tx) ==> Watched(c, n.watches, tx) || Known(c', tx))
    && (Known(c, tx) ==> Known(c', tx))
    && (Pending(c', tx) && !Unwatched(c', tx) ==> Watched(c', n'.watches, tx))
  }

  lemma SettleActTracks(n: Node, a: Action, tx: Tx)
    requires InOrder(n.channel) && (a.OfferSettle? || a.AcceptSettle? || a.RejectSettle?) && Act(n, a).Ok?
    ensures Tracks(n, Act(n, a).value.0, Act(n, a).value.1, tx)
  {
  }

  lemma RenewActTracks(n: Node, a: Action, tx: Tx)
    requires InOrder(n.channel) && Act(n, a).Ok?
    requires a.OfferRenew? || a.AcceptRenew? || a.RejectRenew?
    ensures Tracks(n, Act(n, a).value.0, Act(n, a).value.1, tx)
  {
  }

  lemma CloseActTracks(n: Node, a: Action, tx: Tx)
    requires InOrder(n.channel) && a.OfferClose? && !OffersCloseEarly(n.channel, a) && Act(n, a).Ok?
    ensures Tracks(n, Act(n, a).value.0, Act(n, a).value.1, tx)
  {
  }

  lemma OfferTracks(n: Node, m: Message, tx: Tx)
    requires InOrder(n.channel) && Receive(n, m).Ok?
    requires m.SettleOffer? || m.RenewOffer? || m.CloseOffer?
    requires Pending(n.channel, tx) && !Unwatched(n.channel, tx) ==> Watched(n.channel, n.watches, tx)
    ensures Tracks(n, Receive(n, m).value.0, Receive(n, m).value.1, tx)
  {
  }

  lemma AnswerTracks(n: Node, m: Message, tx: Tx)
    requires InOrder(n.channel) && (m.Reject? || m.RenewRevoke?) && Receive(n, m).Ok?
    ensures Tracks(n, Receive(n, m).value.0, Receive(n, m).value.1, tx)
  {
  }

  lemma AcceptTracks(n: Node, m: Message, tx: Tx)
    requires InOrder(n.channel) && (m.SettleAccept? || m.RenewAccept?) && Receive(n, m).Ok?
    ensures Tracks(n, Receive(n, m).value.0, Receive(n, m).value.1, tx)
  {
  }

  lemma SettlementTracks(n: Node, m: Message, tx: Tx)
    requires InOrder(n.channel) && (m.SettleConfirm? || m.SettleFinalize?) && Receive(n, m).Ok?
    ensures Tracks(n, Receive(n, m).value.0, Receive(n, m).value.1, tx)
  {
  }

  lemma RenewConfirmTracks(n: Node, m: Message, tx: Tx)
    requires InOrder(n.channel) && m.RenewConfirm? && Receive(n, m).Ok?
    ensures Tracks(n, Receive(n, m).value.0, Receive(n, m).value.1, tx)
  {
  }

  lemma RenewFinalizeTracks(n: Node, m: Message, tx: Tx)
    requires InOrder(n.channel) && m.RenewFinalize? && Receive(n, m).Ok?
    ensures Tracks(n, Receive(n, m).value.0, Receive(n, m).value.1, tx)
  {
  }

  lemma ActTracks(n: Node, a: Action, tx: Tx)
    requires InOrder(n.channel) && !OffersCloseEarly(n.channel, a) && Act(n, a).Ok?
    ensures Tracks(n, Act(n, a).value.0, Act(n, a).value.1, tx)
  {
    if a.OfferSettle? || a.AcceptSettle? || a.RejectSettle? {
      SettleActTracks(n, a, tx);
    } else if a.OfferClose? {
      CloseActTracks(n, a, tx);
    } else {
      RenewActTracks(n, a, tx);
    }
  }

  lemma ReceiveTracks(n: Node, m: Message, tx: Tx)
    requires InOrder(n.channel) && Receive(n, m).Ok?
    requires Pending(n.channel, tx) && !Unwatched(n.channel, tx) ==> Watched(n.channel, n.watches, tx)
    ensures Tracks(n, Receive(n, m).value.0, Receive(n, m).value.1, tx)
  {
    match m
    case SettleAccept(_, _) => AcceptTracks(n, m, tx);
    case RenewAccept(_, _) => AcceptTracks(n, m, tx);
    case SettleConfirm(_, _) => SettlementTracks(n, m, tx);
    case SettleFinalize(_) => SettlementTracks(n, m, tx);
    case RenewConfirm(_, _) => RenewConfirmTracks(n, m, tx);
    case RenewFinalize(_, _) => RenewFinalizeTracks(n, m, tx);
    case RenewRevoke(_) => AnswerTracks(n, m, tx);
    case Reject => AnswerTracks(n, m, tx);
    case _ => OfferTracks(n, m, tx);
  }

  lemma GivenUpWith(superseded: seq<Superseded>, s: Superseded, tx: Tx)
    ensures GivenUp(superseded + [s], tx) <==> GivenUp(superseded, tx) || tx == s.tx
  {
    assert forall t :: t in superseded + [s] <==> t in superseded || t == s;
    assert s in superseded + [s];
  }

  lemma RecordedTracks(run: Run, n: Node, reply: Option<Message>, signed: set<Tx>, tx: Tx)
    requires SignedOk(run, signed, tx) && Tracks(run.node, n, reply, tx) && Commitment(run.node.channel).Some?
    ensures SignedOk(Recorded(run, n, reply), signed + SignedIn(n.channel, reply), tx)
  {
    var c := run.node.channel;
    GivenUpWith(run.superseded, Superseded(Commitment(c).value, c.ownPoint.idx), tx);
  }

  lemma {:induction false} PlayTracks(n: Node, events: seq<Event>, tx: Tx)
    requires Starts(n) && KeepsOrder(NewRun(n), events)
    requires Watched(n.channel, n.watches, tx) ==> tx == n.channel.state.tx
    ensures SignedOk(Play(NewRun(n), events), SignedBy(n, events), tx)
  {
    if events != [] {
      var before, e := events[..|events| - 1], events[|events| - 1];
      var run := Play(NewRun(n), before);
      PlayTracks(n, before, tx);
      PlayOk(n, before);
      if StepOf(run.node, e).Ok? {
        match e {
          case Do(a) => ActTracks(run.node, a, tx);
          case Get(m) => ReceiveTracks(run.node, m, tx);
        }
        RecordedTracks(run, StepOf(run.node, e).value.0, StepOf(run.node, e).value.1, SignedBy(n, before), tx);
      }
    }
  }

  lemma GivenUpIsWatched(run: Run, tx: Tx)
    requires RunOk(run) && GivenUp(run.superseded, tx)
    ensures Watched(run.node.channel, run.node.watches, tx) && !Unwatched(run.node.channel, tx)
  {
    var s :| s in run.superseded && s.tx == tx;
    var k: nat :| k < |run.superseded| && run.superseded[k] == s;
    assert RevokedOk(run.node.channel, run.node.watches, run.superseded[k], INITIAL_UPDATE_NUMBER - k);
  }

  lemma CurrentIsWatched(c: Channel, w: Watches, tx: Tx)
    requires CurrentWatched(c, w) && InOrder(c) && Some(tx) == Commitment(c)
    ensures Watched(c, w, tx) && !Unwatched(c, tx)
  {
  }

  lemma OneUnwatched(run: Run, signed: set<Tx>, tx: Tx)
    requires RunOk(run) && SignedOk(run, signed, tx) && tx in signed
    ensures Watched(run.node.channel, run.node.watches, tx) <==> !Unwatched(run.node.channel, tx)
  {
    var c, w := run.node.channel, run.node.watches;
    if GivenUp(run.superseded, tx) {
      GivenUpIsWatched(run, tx);
    } else if Some(tx) == Commitment(c) {
      CurrentIsWatched(c, w, tx);
    }
  }

  /** Wherever the party has given its signature to the peer, it watches for the
      transaction, with one exception: the new buffer transaction that it signed when
      it confirmed a renewal it offered. That one is not watched until the peer's
      finalization arrives, although the peer can complete it. */
  lemma {:induction false} SignedAreWatched(n: Node, events: seq<Event>, tx: Tx)
    requires Starts(n) && KeepsOrder(NewRun(n), events)
    requires Watched(n.channel, n.watches, tx) ==> tx == n.channel.state.tx
    ensures var run, signed := Play(NewRun(n), events), SignedBy(n, events);
            var c := run.node.channel;
            && (tx in signed <==> GivenUp(run.superseded, tx) || Some(tx) == Commitment(c) || Pending(c, tx))
            && (tx in signed ==> (Watched(c, run.node.watches, tx) <==> !(c.state.RenewConfirmed? && tx == c.state.tx)))
  {
    PlayTracks(n, events, tx);
    PlayOk(n, events);
    if tx in SignedBy(n, events) {
      OneUnwatched(Play(NewRun(n), events), SignedBy(n, events), tx);
    }
  }
}
