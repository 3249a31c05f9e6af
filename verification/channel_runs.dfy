/** What holds all through a run of one party, whatever it does and its peer sends,
    exactly as long as the peer does not accept a renewal that the peer itself offered
    and the party does not offer a collaborative close in the middle of something else:
    secrets are revealed in time, every transaction given up is watched, and the one to
    be published is not among them. */
module ChannelRuns {

  import opened Results
  import opened ChannelTypes
  import opened ChannelUpdates
  import opened ChainMonitoring
  import opened ChannelHandlers
  import opened ChannelParty

  predicate WatchedAs(w: Watches, tx: Tx, channelId: nat, txType: TxType) {
    tx in w.txs && w.txs[tx].info == ChannelInfo(channelId, txType)
  }

  /** A settle transaction of the channel is watched. */
  predicate SettleWatched(c: Channel, w: Watches, tx: Tx) {
    WatchedAs(w, tx, c.id, WatchedSettle2(true)) || WatchedAs(w, tx, c.id, WatchedSettle2(false))
  }

  predicate BufferWatched(c: Channel, w: Watches, tx: Tx) {
    && WatchedAs(w, tx, c.id, WatchedBuffer)
    && tx in w.txos && w.txos[tx].info == ChannelInfo(c.id, Cet)
  }

  /** A given-up transaction: made at `idx`, watched as revoked at that index, and
      the secret for it is the one for the counter party's point in it. */
  predicate RevokedOk(c: Channel, w: Watches, s: Superseded, idx: int) {
    && s.idx == idx && !s.tx.CloseTx?
    && OwnPointIn(s.tx, c.party) == Point(c.party, s.idx)
    && s.tx in w.txs && w.txs[s.tx].info.channelId == c.id
    && var t := w.txs[s.tx].info.txType;
    && t.Revoked? && t.updateIdx == s.idx
    && t.ownSig == AdaptorSig(s.tx, c.party, PublishKey(Other(c.party), CounterPointIn(s.tx, c.party)))
    && t.kind == (if s.tx.BufferTx? then RevokedBuffer else RevokedSettle)
    && (s.idx in c.secrets ==> PointOf(c.secrets[s.idx]) == CounterPointIn(s.tx, c.party))
  }

  ghost predicate AllRevokedOk(c: Channel, w: Watches, superseded: seq<Superseded>) {
    forall k: nat | k < |superseded| :: RevokedOk(c, w, superseded[k], INITIAL_UPDATE_NUMBER - k)
  }

  /** The current transaction is watched, and so is a settle transaction the peer may complete. */
  predicate CurrentWatched(c: Channel, w: Watches) {
    var a := Anchor(c);
    && IsPublishable(a)
    && (if a.Settled? then SettleWatched(c, w, a.tx) else BufferWatched(c, w, a.tx))
    && (c.state.SettledAccepted? || c.state.SettledConfirmed? ==> SettleWatched(c, w, c.state.tx))
  }

  /** The smallest index whose secret has been revealed. */
  function Frontier(c: Channel): nat {
    if c.state.SettledConfirmed? || c.state.RenewFinalized? then c.updateIdx else c.updateIdx + 1
  }

  ghost predicate RevealedOk(c: Channel, revealed: set<nat>) {
    forall k: nat :: k in revealed <==> Frontier(c) <= k <= INITIAL_UPDATE_NUMBER
  }

  /** While the newest secret is missing, the point it will have to match is known. */
  predicate AwaitedOk(c: Channel, superseded: seq<Superseded>) {
    c.state.RenewFinalized? ==>
      && superseded != []
      && var s := superseded[|superseded| - 1];
      && !s.tx.CloseTx? && c.state.prevOfferPoint == CounterPointIn(s.tx, c.party)
  }

  /** A settle transaction took the place of a buffer transaction. */
  predicate PredecessorOk(c: Channel, superseded: seq<Superseded>) {
    Commitment(c).Some? && Commitment(c).value.SettleTx? ==>
      superseded != [] && superseded[|superseded| - 1].tx.BufferTx?
  }

  ghost predicate RunOk(run: Run) {
    var c, w := run.node.channel, run.node.watches;
    && ChannelOk(c)
    && |run.superseded| == INITIAL_UPDATE_NUMBER - PointIdx(c)
    && AllRevokedOk(c, w, run.superseded)
    && CurrentWatched(c, w)
    && RevealedOk(c, run.revealed)
    && AwaitedOk(c, run.superseded)
    && PredecessorOk(c, run.superseded)
  }

  /** A new channel in its first state. */
  ghost predicate Starts(n: Node) {
    && n.channel.updateIdx == INITIAL_UPDATE_NUMBER && n.channel.secrets == map[] && n.channel.state.Established?
    && n.channel.ownPoint == Point(n.channel.party, INITIAL_UPDATE_NUMBER)
    && Usable(n.channel, n.channel.state)
    && n.channel.state.isOffer == (n.channel.state.tx.offerer == n.channel.party)
    && BufferWatched(n.channel, n.watches, n.channel.state.tx)
  }

  // ---- One step ----

  /** Watching another transaction does not disturb what is watched. */
  lemma StillRevoked(c: Channel, c': Channel, w: Watches, w': Watches, superseded: seq<Superseded>)
    requires AllRevokedOk(c, w, superseded)
    requires c'.id == c.id && c'.party == c.party
    requires forall k: nat | k < |superseded| ::
               superseded[k].tx in w'.txs && w'.txs[superseded[k].tx] == w.txs[superseded[k].tx]
    requires forall k: nat | k < |superseded| && superseded[k].idx in c'.secrets ::
               !superseded[k].tx.CloseTx?
               && PointOf(c'.secrets[superseded[k].idx]) == CounterPointIn(superseded[k].tx, c.party)
    ensures AllRevokedOk(c', w', superseded)
  {
    forall k: nat | k < |superseded| ensures RevokedOk(c', w', superseded[k], INITIAL_UPDATE_NUMBER - k) {
      assert RevokedOk(c, w, superseded[k], INITIAL_UPDATE_NUMBER - k);
    }
  }

  /** The transactions given up differ from any made at a smaller index. */
  lemma NotSuperseded(c: Channel, w: Watches, superseded: seq<Superseded>, tx: Tx)
    requires AllRevokedOk(c, w, superseded) && |superseded| <= INITIAL_UPDATE_NUMBER + 1
    requires tx.CloseTx? || OwnPointIn(tx, c.party).idx <= INITIAL_UPDATE_NUMBER - |superseded|
    ensures forall k: nat | k < |superseded| :: superseded[k].tx != tx
  {
    forall k: nat | k < |superseded| ensures superseded[k].tx != tx {
      assert RevokedOk(c, w, superseded[k], INITIAL_UPDATE_NUMBER - k);
    }
  }

  /** The frontier moves by the secret that is sent, if one is. */
  predicate FrontierMoves(c: Channel, c': Channel, reply: Option<Message>) {
    if SecretIn(reply).Some? then SecretIn(reply).value.idx == Frontier(c') && Frontier(c') + 1 == Frontier(c)
    else Frontier(c') == Frontier(c)
  }

  /** The watches have grown by no more than a transaction for a smaller index. */
  ghost predicate WatchesGrow(w: Watches, w': Watches, party: Party, idx: int) {
    w' == w || exists tx, info ::
      w' == Watching(w, tx, info) && (tx.CloseTx? || OwnPointIn(tx, party).idx <= idx)
  }

  /** A step that gives up nothing and stores no secret. */
  ghost predicate Holds(n: Node, n': Node, reply: Option<Message>) {
    var c, c' := n.channel, n'.channel;
    && Kept(c, c')
    && c'.ownPoint == c.ownPoint && c'.secrets == c.secrets && Anchor(c') == Anchor(c)
    && PointIdx(c') == PointIdx(c) && c'.state.RenewFinalized? == c.state.RenewFinalized?
    && (c.state.RenewFinalized? ==> c' == c)
    && WatchesGrow(n.watches, n'.watches, c.party, PointIdx(c))
    && CurrentWatched(c', n'.watches)
    && FrontierMoves(c, c', reply)
  }

  lemma HoldingStep(run: Run, n: Node, reply: Option<Message>)
    requires RunOk(run) && Holds(run.node, n, reply)
    ensures RunOk(Recorded(run, n, reply))
  {
    var c, w, w' := run.node.channel, run.node.watches, n.watches;
    if w' != w {
      var tx, info :| w' == Watching(w, tx, info)
          && (tx.CloseTx? || OwnPointIn(tx, n.channel.party).idx <= PointIdx(n.channel));
      NotSuperseded(c, w, run.superseded, tx);
    }
    forall k: nat | k < |run.superseded|
      ensures run.superseded[k].tx in w'.txs && w'.txs[run.superseded[k].tx] == w.txs[run.superseded[k].tx]
      ensures run.superseded[k].idx in c.secrets ==>
                !run.superseded[k].tx.CloseTx?
                && PointOf(c.secrets[run.superseded[k].idx]) == CounterPointIn(run.superseded[k].tx, c.party)
    {
      assert RevokedOk(c, w, run.superseded[k], INITIAL_UPDATE_NUMBER - k);
    }
    StillRevoked(c, n.channel, w, w', run.superseded);
  }

  lemma ActSettleHolds(n: Node, a: Action)
    requires ChannelOk(n.channel) && CurrentWatched(n.channel, n.watches) && Act(n, a).Ok?
    requires a.OfferSettle? || a.AcceptSettle? || a.RejectSettle?
    ensures Holds(n, Act(n, a).value.0, Act(n, a).value.1)
  {
    ActSettleOk(n, a);
    var n' := Act(n, a).value.0;
    if a.AcceptSettle? {
      assert n'.watches == Watching(n.watches, n'.channel.state.tx, ChannelInfo(n.channel.id, WatchedSettle2(false)));
    }
  }

  lemma ActRenewHolds(n: Node, a: Action)
    requires ChannelOk(n.channel) && CurrentWatched(n.channel, n.watches) && Act(n, a).Ok?
    requires !OffersCloseEarly(n.channel, a)
    requires a.OfferRenew? || a.AcceptRenew? || a.RejectRenew? || a.OfferClose?
    ensures Holds(n, Act(n, a).value.0, Act(n, a).value.1)
  {
    ActOk(n, a);
    var n' := Act(n, a).value.0;
    if a.OfferClose? {
      assert n'.watches == Watching(n.watches, n'.channel.state.tx, ChannelInfo(n.channel.id, CollaborativeClose));
    }
  }

  lemma OfferHolds(n: Node, m: Message)
    requires ChannelOk(n.channel) && CurrentWatched(n.channel, n.watches) && Receive(n, m).Ok?
    requires m.SettleOffer? || m.RenewOffer? || m.Reject? || m.CloseOffer?
    ensures Holds(n, Receive(n, m).value.0, Receive(n, m).value.1)
  {
    OfferOk(n, m);
  }

  lemma AcceptHolds(n: Node, m: Message)
    requires ChannelOk(n.channel) && CurrentWatched(n.channel, n.watches) && Receive(n, m).Ok?
    requires (m.SettleAccept? || m.RenewAccept?) && !AcceptsPeersOffer(n.channel, m)
    ensures Holds(n, Receive(n, m).value.0, Receive(n, m).value.1)
  {
    ReceiveOk(n, m);
    var n' := Receive(n, m).value.0;
    if m.SettleAccept? {
      assert n'.watches == Watching(n.watches, n'.channel.state.tx, ChannelInfo(n.channel.id, WatchedSettle2(true)));
    }
  }

  /** A step that replaces the current transaction by one for the next index. */
  ghost predicate Replaces(n: Node, n': Node, reply: Option<Message>) {
    var c, c', w, w' := n.channel, n'.channel, n.watches, n'.watches;
    && Kept(c, c')
    && IsPublishable(Anchor(c)) && IsPublishable(c'.state) && !c.state.RenewFinalized?
    && PointIdx(c') == PointIdx(c) - 1
    && Commitment(c') != Commitment(c) && (c'.state.tx.SettleTx? ==> Anchor(c).tx.BufferTx?)
    && (forall tx | tx in w.txs && tx != Anchor(c).tx && tx != c'.state.tx :: tx in w'.txs && w'.txs[tx] == w.txs[tx])
    && (forall k | k in c'.secrets && k != c.updateIdx :: k in c.secrets && c'.secrets[k] == c.secrets[k])
    && RevokedOk(c', w', Superseded(Anchor(c).tx, c.updateIdx), c.updateIdx)
    && (c'.state.RenewFinalized? ==> c'.state.prevOfferPoint == CounterPointIn(Anchor(c).tx, c.party))
    && CurrentWatched(c', w')
    && FrontierMoves(c, c', reply)
  }

  /** Such a step gives up one transaction and leaves the entries of the earlier ones alone. */
  lemma PastKept(run: Run, n: Node, reply: Option<Message>)
    requires RunOk(run) && Replaces(run.node, n, reply)
    ensures Recorded(run, n, reply).superseded ==
            run.superseded + [Superseded(Anchor(run.node.channel).tx, run.node.channel.updateIdx)]
    ensures forall k: nat | k < |run.superseded| ::
              run.superseded[k].tx in run.node.watches.txs && run.superseded[k].tx in n.watches.txs
              && n.watches.txs[run.superseded[k].tx] == run.node.watches.txs[run.superseded[k].tx]
  {
    var c, w, past := run.node.channel, run.node.watches, run.superseded;
    NotSuperseded(c, w, past, Anchor(c).tx);
    NotSuperseded(c, w, past, n.channel.state.tx);
    forall k: nat | k < |past|
      ensures past[k].tx in w.txs && past[k].tx in n.watches.txs && n.watches.txs[past[k].tx] == w.txs[past[k].tx]
    {
      assert RevokedOk(c, w, past[k], INITIAL_UPDATE_NUMBER - k);
    }
  }

  lemma ReplacingStep(run: Run, n: Node, reply: Option<Message>)
    requires RunOk(run) && Replaces(run.node, n, reply)
    ensures RunOk(Recorded(run, n, reply))
  {
    var c, w, w' := run.node.channel, run.node.watches, n.watches;
    var past, all := run.superseded, Recorded(run, n, reply).superseded;
    PastKept(run, n, reply);
    forall k: nat | k < |past| && past[k].idx in n.channel.secrets
      ensures !past[k].tx.CloseTx? && PointOf(n.channel.secrets[past[k].idx]) == CounterPointIn(past[k].tx, c.party)
    {
      assert RevokedOk(c, w, past[k], INITIAL_UPDATE_NUMBER - k);
    }
    StillRevoked(c, n.channel, w, w', past);
    forall k: nat | k < |all| ensures RevokedOk(n.channel, w', all[k], INITIAL_UPDATE_NUMBER - k) {
      if k < |past| {
        assert RevokedOk(n.channel, w', past[k], INITIAL_UPDATE_NUMBER - k);
      }
    }
  }

  lemma SettleConfirmReplaces(n: Node, m: Message)
    requires ChannelOk(n.channel) && CurrentWatched(n.channel, n.watches) && m.SettleConfirm? && Receive(n, m).Ok?
    ensures Replaces(n, Receive(n, m).value.0, Receive(n, m).value.1)
  {
    SettleConfirmOk(n, m);
  }

  lemma SettleFinalizeReplaces(n: Node, m: Message)
    requires ChannelOk(n.channel) && CurrentWatched(n.channel, n.watches) && m.SettleFinalize? && Receive(n, m).Ok?
    ensures Replaces(n, Receive(n, m).value.0, Receive(n, m).value.1)
  {
    SettleFinalizeOk(n, m);
  }

  lemma RenewConfirmReplaces(n: Node, m: Message)
    requires ChannelOk(n.channel) && CurrentWatched(n.channel, n.watches) && m.RenewConfirm? && Receive(n, m).Ok?
    ensures Replaces(n, Receive(n, m).value.0, Receive(n, m).value.1)
  {
    RenewConfirmOk(n, m);
  }

  lemma RenewFinalizeReplaces(n: Node, m: Message)
    requires ChannelOk(n.channel) && CurrentWatched(n.channel, n.watches) && m.RenewFinalize? && Receive(n, m).Ok?
    ensures Replaces(n, Receive(n, m).value.0, Receive(n, m).value.1)
  {
    RenewFinalizeOk(n, m);
  }

  /** The revocation brings the secret that was still missing. */
  lemma RenewRevokeStep(run: Run, m: Message)
    requires RunOk(run) && m.RenewRevoke? && Receive(run.node, m).Ok?
    ensures RunOk(Advance(run, Get(m)))
  {
    RenewRevokeOk(run.node, m);
    var c, w := run.node.channel, run.node.watches;
    var (n, reply) := Receive(run.node, m).value;
    forall k: nat | k < |run.superseded|
      ensures run.superseded[k].tx in w.txs
      ensures run.superseded[k].idx in n.channel.secrets ==>
                !run.superseded[k].tx.CloseTx?
                && PointOf(n.channel.secrets[run.superseded[k].idx]) == CounterPointIn(run.superseded[k].tx, c.party)
    {
      assert RevokedOk(c, w, run.superseded[k], INITIAL_UPDATE_NUMBER - k);
    }
    StillRevoked(c, n.channel, w, w, run.superseded);
  }

  /** The two steps that get a party out of order. */
  predicate LeavesOrder(c: Channel, e: Event) {
    match e
    case Do(a) => OffersCloseEarly(c, a)
    case Get(m) => AcceptsPeersOffer(c, m)
  }

  predicate Replacing(e: Event) {
    e.Get? && (e.message.SettleConfirm? || e.message.SettleFinalize? || e.message.RenewConfirm?
        || e.message.RenewFinalize?)
  }

  lemma ReplacingReplaces(n: Node, e: Event)
    requires ChannelOk(n.channel) && CurrentWatched(n.channel, n.watches) && Replacing(e) && StepOf(n, e).Ok?
    ensures Replaces(n, StepOf(n, e).value.0, StepOf(n, e).value.1)
  {
    match e.message
    case SettleConfirm(_, _) => SettleConfirmReplaces(n, e.message);
    case SettleFinalize(_) => SettleFinalizeReplaces(n, e.message);
    case RenewConfirm(_, _) => RenewConfirmReplaces(n, e.message);
    case RenewFinalize(_, _) => RenewFinalizeReplaces(n, e.message);
  }

  lemma OtherHolds(n: Node, e: Event)
    requires ChannelOk(n.channel) && CurrentWatched(n.channel, n.watches) && StepOf(n, e).Ok?
    requires !Replacing(e) && !(e.Get? && e.message.RenewRevoke?) && !LeavesOrder(n.channel, e)
    ensures Holds(n, StepOf(n, e).value.0, StepOf(n, e).value.1)
  {
    match e
    case Do(a) =>
      if a.OfferSettle? || a.AcceptSettle? || a.RejectSettle? { ActSettleHolds(n, a); } else { ActRenewHolds(n, a); }
    case Get(m) => if m.SettleAccept? || m.RenewAccept? { AcceptHolds(n, m); } else { OfferHolds(n, m); }
  }

  lemma AdvanceOk(run: Run, e: Event)
    requires RunOk(run)
    ensures RunOk(Advance(run, e)) <==> !LeavesOrder(run.node.channel, e)
  {
    if LeavesOrder(run.node.channel, e) {
      match e
      case Do(a) => ActOk(run.node, a);
      case Get(m) => ReceiveOk(run.node, m);
    } else if StepOf(run.node, e).Ok? {
      var (n, reply) := StepOf(run.node, e).value;
      if e.Get? && e.message.RenewRevoke? {
        RenewRevokeStep(run, e.message);
      } else if Replacing(e) {
        ReplacingReplaces(run.node, e);
        ReplacingStep(run, n, reply);
      } else {
        OtherHolds(run.node, e);
        HoldingStep(run, n, reply);
      }
    }
  }

  /** No step of the run is one of those. */
  ghost predicate KeepsOrder(run: Run, events: seq<Event>) {
    events == [] ||
    (&& KeepsOrder(run, events[..|events| - 1])
     && !LeavesOrder(Play(run, events[..|events| - 1]).node.channel, events[|events| - 1]))
  }

  /** The invariant holds all through the run. */
  ghost predicate InOrderThroughout(run: Run, events: seq<Event>) {
    RunOk(Play(run, events)) && (events == [] || InOrderThroughout(run, events[..|events| - 1]))
  }

  function NewRun(n: Node): Run {
    Run(n, [], {})
  }

  /** A party stays in order through a run exactly when neither of the two steps is
      taken: the peer's acceptance of its own renewal, and an early close offer. */
  lemma {:induction false} InOrderIff(n: Node, events: seq<Event>)
    requires Starts(n)
    ensures InOrderThroughout(NewRun(n), events) <==> KeepsOrder(NewRun(n), events)
  {
    if events != [] {
      var before := events[..|events| - 1];
      InOrderIff(n, before);
      if InOrderThroughout(NewRun(n), before) {
        AdvanceOk(Play(NewRun(n), before), events[|events| - 1]);
      }
    }
  }

  /** The invariant of every such run. */
  lemma {:induction false} PlayOk(n: Node, events: seq<Event>)
    requires Starts(n) && KeepsOrder(NewRun(n), events)
    ensures RunOk(Play(NewRun(n), events))
  {
    InOrderIff(n, events);
  }

  // ---- What it means ----

  /** In order, a secret is sent only for the current index, with the peer's signature
      of a replacement in hand that only the own key can complete; and nothing below the
      frontier has been sent. */
  lemma {:induction false} RevocationIsSafe(n: Node, events: seq<Event>, e: Event)
    requires Starts(n) && KeepsOrder(NewRun(n), events)
    ensures var run := Play(NewRun(n), events);
            StepOf(run.node, e).Ok? && !LeavesOrder(run.node.channel, e) ==>
              RevealsSafely(run.node.channel, StepOf(run.node, e).value.0.channel, StepOf(run.node, e).value.1)
    ensures var run := Play(NewRun(n), events);
            forall k: nat :: k in run.revealed <==> Frontier(run.node.channel) <= k <= INITIAL_UPDATE_NUMBER
  {
    PlayOk(n, events);
    var run := Play(NewRun(n), events);
    match e
    case Do(a) => ActOk(run.node, a);
    case Get(m) => ReceiveOk(run.node, m);
  }

  /** Out of order, three messages of the peer are enough: a party in a new channel takes in the peer's
      renewal offer, the peer's acceptance of it and its finalization, and sends its
      current secret while it holds a replacement for the peer's point only. */
  lemma PeersOfferRevealsTooEarly(n: Node, offered: Message, accept: Message) returns (finalize: Message)
    requires Starts(n) && n.channel.counterPoint == Point(Other(n.channel.party), INITIAL_UPDATE_NUMBER)
    requires offered.RenewOffer? && offered.counterPayout <= n.channel.Total()
    requires offered.nextPoint != Point(n.channel.party, INITIAL_UPDATE_NUMBER - 1)
    requires accept.RenewAccept?
    requires accept.contractSig == ContractSig(
               BufferTx(INITIAL_UPDATE_NUMBER, offered.terms, n.channel.Total(), n.channel.party,
                        offered.nextPoint, accept.nextPoint),
               Other(n.channel.party))
    ensures Receive(n, offered).Ok?
    ensures var n1 := Receive(n, offered).value.0;
            LeavesOrder(n1.channel, Get(accept)) && Receive(n1, accept).Ok?
    ensures var n2 := Receive(Receive(n, offered).value.0, accept).value.0;
            && Receive(n2, finalize).Ok?
            && SecretIn(Receive(n2, finalize).value.1) == Some(Secret(n.channel.party, INITIAL_UPDATE_NUMBER))
            && !RevealsSafely(n2.channel, Receive(n2, finalize).value.0.channel, Receive(n2, finalize).value.1)
  {
    var n1 := Receive(n, offered).value.0;
    OfferOk(n, offered);
    assert n1.channel.state == RenewOffered(Contract(INITIAL_UPDATE_NUMBER, offered.terms, n.channel.Total(), false),
                                            offered.counterPayout, offered.nextPoint, false);
    assert RenewConfirmOf(n1.channel, accept).Ok?;
    finalize := PeersOfferCarriedOn(n1, accept);
  }

  /** The broadcast is the current transaction, with a signature made for the
      current own point. */
  predicate PublishesCurrent(c: Channel, r: Outcome<Broadcast>) {
    && r.Ok? && r.value.rollBacks <= 1
    && Some(r.value.tx) == Commitment(c) && !r.value.tx.CloseTx?
    && r.value.counterSig == AdaptorSig(r.value.tx, Other(c.party), PublishKey(c.party, c.ownPoint))
    && OwnPointIn(r.value.tx, c.party) == c.ownPoint
  }

  lemma ForceCloseFromState(c: Channel, settlementKnown: bool)
    requires InOrder(c) && IsPublishable(c.state) && (c.state.Settled? ==> settlementKnown)
    ensures PublishesCurrent(c, ForceClose(c, settlementKnown))
  {
  }

  lemma ForceCloseFromRollBack(c: Channel, settlementKnown: bool)
    requires InOrder(c) && !IsPublishable(c.state) && IsPublishable(Anchor(c))
             && (Anchor(c).Settled? ==> settlementKnown)
    ensures PublishesCurrent(c, ForceClose(c, settlementKnown))
  {
    ForceCloseFromState(c.(state := c.rollBack.value, rollBack := None), settlementKnown);
  }

  lemma ForceCloseOk(run: Run)
    requires RunOk(run)
    ensures PublishesCurrent(run.node.channel,
                             ForceClose(run.node.channel, SettlementKnown(run.node.watches, run.node.channel.id)))
  {
    var c := run.node.channel;
    if Anchor(c).Settled? {
      SettledIsKnown(run);
    }
    if IsPublishable(c.state) {
      ForceCloseFromState(c, SettlementKnown(run.node.watches, c.id));
    } else {
      ForceCloseFromRollBack(c, SettlementKnown(run.node.watches, c.id));
    }
  }

  /** In order, closing by force works, with at most one roll back: it
      publishes the current transaction, which is none of those given up, and the
      secret for its point is not out unless the party has just confirmed a
      settlement. */
  lemma {:induction false} ForceCloseWorks(n: Node, events: seq<Event>)
    requires Starts(n) && KeepsOrder(NewRun(n), events)
    ensures var run := Play(NewRun(n), events);
            var c := run.node.channel;
            var r := ForceClose(c, SettlementKnown(run.node.watches, c.id));
            && PublishesCurrent(c, r)
            && (c.ownPoint.idx in run.revealed <==> c.state.SettledConfirmed?)
            && forall k: nat | k < |run.superseded| :: run.superseded[k].tx != r.value.tx
  {
    PlayOk(n, events);
    var run := Play(NewRun(n), events);
    ForceCloseOk(run);
    NotSuperseded(run.node.channel, run.node.watches, run.superseded, Anchor(run.node.channel).tx);
  }

  /** A settled channel follows one whose buffer transaction is watched as revoked. */
  lemma SettledIsKnown(run: Run)
    requires RunOk(run) && Anchor(run.node.channel).Settled?
    ensures SettlementKnown(run.node.watches, run.node.channel.id)
  {
    var c, w := run.node.channel, run.node.watches;
    var k: nat := |run.superseded| - 1;
    assert RevokedOk(c, w, run.superseded[k], INITIAL_UPDATE_NUMBER - k);
    assert RevokedBufferOf(w, run.superseded[k].tx, c.id);
  }

  /** In order, the current transaction is watched for what it is, and exactly
      one transaction was given up for each index so far. */
  lemma {:induction false} WatchListIsRight(n: Node, events: seq<Event>)
    requires Starts(n) && KeepsOrder(NewRun(n), events)
    ensures var run := Play(NewRun(n), events);
            var c := run.node.channel;
            && CurrentWatched(c, run.node.watches)
            && |run.superseded| == INITIAL_UPDATE_NUMBER - c.ownPoint.idx
            && forall k: nat | k < |run.superseded| :: run.superseded[k].idx == INITIAL_UPDATE_NUMBER - k
  {
    PlayOk(n, events);
    var run := Play(NewRun(n), events);
    forall k: nat | k < |run.superseded| ensures run.superseded[k].idx == INITIAL_UPDATE_NUMBER - k {
      assert RevokedOk(run.node.channel, run.node.watches, run.superseded[k], INITIAL_UPDATE_NUMBER - k);
    }
  }

  /** The two payouts of a settled, or about to be settled or closed, channel. */
  function PayoutsOf(c: Channel): Option<(int, int)> {
    match c.state
    case SettledReceived(own, counter, _) => Some((own, counter))
    case SettledAccepted(_, _, _, _, own, counter) => Some((own, counter))
    case SettledConfirmed(_, _, _, _, _, own, counter) => Some((own, counter))
    case Settled(_, _, _, own, counter) => Some((own, counter))
    case CloseOffered(counter, _, true) => Some((c.Total() - counter, counter))
    case CloseOffered(own, _, false) => Some((own, c.Total() - own))
    case _ => None
  }

  predicate SharesOut(c: Channel, total: nat) {
    PayoutsOf(c).Some? ==>
      && PayoutsOf(c).value.0 + PayoutsOf(c).value.1 == total
      && (!c.state.SettledReceived? ==>
            && !c.state.tx.BufferTx?
            && PaidTo(c.state.tx, c.party) == PayoutsOf(c).value.0
            && PaidTo(c.state.tx, Other(c.party)) == PayoutsOf(c).value.1)
  }

  lemma StateSharesOut(c: Channel)
    requires StateOk(c)
    ensures SharesOut(c, c.Total())
  {
  }

  predicate SameCollateral(c: Channel, c': Channel) {
    c'.ownCollateral == c.ownCollateral && c'.counterCollateral == c.counterCollateral
  }

  lemma AdvanceKeepsCollateral(run: Run, e: Event)
    requires RunOk(run) && !LeavesOrder(run.node.channel, e)
    ensures SameCollateral(run.node.channel, Advance(run, e).node.channel)
  {
    match e
    case Do(a) => ActOk(run.node, a);
    case Get(m) => ReceiveOk(run.node, m);
  }

  lemma {:induction false} CollateralKept(n: Node, events: seq<Event>)
    requires Starts(n) && KeepsOrder(NewRun(n), events)
    ensures SameCollateral(n.channel, Play(NewRun(n), events).node.channel)
  {
    if events != [] {
      var before := events[..|events| - 1];
      CollateralKept(n, before);
      PlayOk(n, before);
      AdvanceKeepsCollateral(Play(NewRun(n), before), events[|events| - 1]);
    }
  }

  /** The collateral never changes, the payouts always add up to it, and the transaction
      that settles or closes pays each party its own. */
  lemma {:induction false} CollateralIsConserved(n: Node, events: seq<Event>)
    requires Starts(n) && KeepsOrder(NewRun(n), events)
    ensures var c := Play(NewRun(n), events).node.channel;
            SameCollateral(n.channel, c) && SharesOut(c, n.channel.Total())
  {
    PlayOk(n, events);
    CollateralKept(n, events);
    StateSharesOut(Play(NewRun(n), events).node.channel);
  }

  /** A collaborative close may be offered in any state, but offered in the middle
      of a negotiation it loses the state to fall back to: closing by force then
      panics, and does so in exactly these states. */
  lemma CloseOfferKeepsFallback(run: Run, counterPayout: nat)
    requires RunOk(run) && counterPayout <= run.node.channel.Total()
    ensures var c := run.node.channel;
            var offered := CloseOfferOf(c, counterPayout);
            && offered.Ok?
            && (ForceClose(offered.value.0, SettlementKnown(run.node.watches, c.id)) == Err(Fault) <==>
                !IsPublishable(c.state))
  {
    if Anchor(run.node.channel).Settled? {
      SettledIsKnown(run);
    }
  }
}
