/** Which of the transactions a party has given up it can punish when one of them is
    published: that depends on the role recorded in the watch entry, which the code
    does not always get right. */
module ChannelPenalty {

  import opened Results
  import opened ChannelTypes
  import opened ChannelUpdates
  import opened ChainMonitoring
  import opened ChannelHandlers
  import opened ChannelParty
  import opened ChannelRuns

  // ---- One watch entry ----

  /** The penalty is built for the role and has to fit the output it takes. */
  predicate RoleFits(tx: Tx, isOffer: bool, p: Party)
    requires !tx.CloseTx?
  {
    if tx.BufferTx? then isOffer == (tx.offerer == p)
    else if isOffer then tx.offerer == p && tx.offerPayout >= DUST_LIMIT && tx.acceptPayout >= DUST_LIMIT
    else if tx.offerPayout >= DUST_LIMIT then tx.offerer != p
    else tx.offerer == p && tx.acceptPayout >= DUST_LIMIT
  }

  function PunishAs(c: Channel, tx: Tx, t: TxType): Outcome<Secret>
    requires t.Revoked?
  {
    Punish(c, tx, t.updateIdx, t.ownSig, t.isOffer, t.kind)
  }

  function RoleIn(w: Watches, tx: Tx): bool {
    tx in w.txs && w.txs[tx].info.txType.Revoked? && w.txs[tx].info.txType.isOffer
  }

  /** With the secret at hand the penalty spends the output exactly when the role fits. */
  lemma PunishIff(c: Channel, w: Watches, s: Superseded, idx: int)
    requires RevokedOk(c, w, s, idx)
    ensures var r := PunishAs(c, s.tx, w.txs[s.tx].info.txType);
            && (s.idx !in c.secrets ==> r == Err(Fault))
            && (s.idx in c.secrets ==> (r.Ok? <==> RoleFits(s.tx, RoleIn(w, s.tx), c.party)))
            && (r.Ok? ==> PointOf(r.value) == CounterPointIn(s.tx, c.party))
  {
  }

  // ---- The roles that a run records ----

  /** What took the place of the transaction given up as number `k`. */
  function NextTx(run: Run, k: nat): Tx
    requires k < |run.superseded| && Commitment(run.node.channel).Some?
  {
    if k + 1 < |run.superseded| then run.superseded[k + 1].tx else Commitment(run.node.channel).value
  }

  /** A renewal always records the accepting role. A settlement, which only replaces a
      buffer transaction, records the role that the channel state has, and that is the
      offering one after any renewal. */
  predicate RoleOk(run: Run, k: nat)
    requires k < |run.superseded| && Commitment(run.node.channel).Some?
  {
    var p, tx := run.node.channel.party, run.superseded[k].tx;
    && RoleIn(run.node.watches, tx) ==
       (NextTx(run, k).SettleTx? && (k > 0 || (!tx.CloseTx? && tx.offerer == p)))
    && (NextTx(run, k).SettleTx? ==> tx.BufferTx?)
  }

  /** The role in the state is right in a new channel and the offering one ever after. */
  predicate StateRoleOk(c: Channel) {
    Anchor(c).Established? ==>
      Anchor(c).isOffer == (PointIdx(c) < INITIAL_UPDATE_NUMBER || Anchor(c).tx.offerer == c.party)
  }

  ghost predicate RolesOk(run: Run) {
    && Commitment(run.node.channel).Some? && StateRoleOk(run.node.channel)
    && forall k: nat | k < |run.superseded| :: RoleOk(run, k)
  }

  lemma HoldingKeepsRoles(run: Run, n: Node, reply: Option<Message>)
    requires RunOk(run) && RolesOk(run) && Holds(run.node, n, reply)
    ensures RolesOk(Recorded(run, n, reply))
  {
    var c, w, w' := run.node.channel, run.node.watches, n.watches;
    var after := Recorded(run, n, reply);
    if w' != w {
      var tx, info :| w' == Watching(w, tx, info)
          && (tx.CloseTx? || OwnPointIn(tx, n.channel.party).idx <= PointIdx(n.channel));
      NotSuperseded(c, w, run.superseded, tx);
    }
    forall k: nat | k < |run.superseded| ensures RoleOk(after, k) {
      assert RoleOk(run, k);
      assert RevokedOk(c, w, run.superseded[k], INITIAL_UPDATE_NUMBER - k);
      assert NextTx(after, k) == NextTx(run, k);
    }
  }

  /** A replacing step records the role of the state, or the accepting one, and leaves
      the offering role behind. */
  predicate RecordsRole(n: Node, n': Node) {
    var a, a' := Anchor(n.channel), n'.channel.state;
    && IsPublishable(a) && IsPublishable(a')
    && (RoleIn(n'.watches, a.tx) <==> a.Established? && a.isOffer && a'.tx.SettleTx?)
    && (a'.tx.SettleTx? ==> a.Established?)
    && (a'.Established? ==> a'.isOffer)
  }

  lemma SettlementRecordsRole(n: Node, m: Message)
    requires ChannelOk(n.channel) && (m.SettleConfirm? || m.SettleFinalize?) && Receive(n, m).Ok?
    ensures RecordsRole(n, Receive(n, m).value.0)
  {
  }

  lemma RenewalRecordsRole(n: Node, m: Message)
    requires ChannelOk(n.channel) && (m.RenewConfirm? || m.RenewFinalize?) && Receive(n, m).Ok?
    ensures RecordsRole(n, Receive(n, m).value.0)
  {
  }

  lemma RoleKept(run: Run, after: Run, k: nat)
    requires k < |run.superseded| && k < |after.superseded| && after.superseded[k] == run.superseded[k]
    requires Commitment(run.node.channel).Some? && Commitment(after.node.channel).Some?
    requires after.node.channel.party == run.node.channel.party && NextTx(after, k) == NextTx(run, k)
    requires RoleIn(after.node.watches, run.superseded[k].tx) == RoleIn(run.node.watches, run.superseded[k].tx)
    requires RoleOk(run, k)
    ensures RoleOk(after, k)
  {
  }

  lemma ReplacingKeepsRoles(run: Run, n: Node, reply: Option<Message>)
    requires RunOk(run) && RolesOk(run) && Replaces(run.node, n, reply) && RecordsRole(run.node, n)
    ensures RolesOk(Recorded(run, n, reply))
  {
    var past, after := run.superseded, Recorded(run, n, reply);
    PastKept(run, n, reply);
    forall k: nat | k < |after.superseded| ensures RoleOk(after, k) {
      if k < |past| {
        assert RoleOk(run, k);
        RoleKept(run, after, k);
      }
    }
  }

  lemma AdvanceKeepsRoles(run: Run, e: Event)
    requires RunOk(run) && RolesOk(run) && !LeavesOrder(run.node.channel, e)
    ensures RolesOk(Advance(run, e))
  {
    if StepOf(run.node, e).Ok? {
      var (n, reply) := StepOf(run.node, e).value;
      if e.Get? && e.message.RenewRevoke? {
        RevocationKeepsRoles(run, e.message);
      } else if Replacing(e) {
        ReplacingReplaces(run.node, e);
        if e.message.SettleConfirm? || e.message.SettleFinalize? {
          SettlementRecordsRole(run.node, e.message);
        } else {
          RenewalRecordsRole(run.node, e.message);
        }
        ReplacingKeepsRoles(run, n, reply);
      } else {
        OtherHolds(run.node, e);
        HoldingKeepsRoles(run, n, reply);
      }
    }
  }

  lemma RevocationKeepsRoles(run: Run, m: Message)
    requires RunOk(run) && RolesOk(run) && m.RenewRevoke? && Receive(run.node, m).Ok?
    ensures RolesOk(Advance(run, Get(m)))
  {
    var after := Advance(run, Get(m));
    assert after.superseded == run.superseded && Commitment(after.node.channel) == Commitment(run.node.channel);
    forall k: nat | k < |run.superseded| ensures RoleOk(after, k) {
      assert RoleOk(run, k);
      assert NextTx(after, k) == NextTx(run, k);
    }
  }

  lemma {:induction false} PlayKeepsRoles(n: Node, events: seq<Event>)
    requires Starts(n) && KeepsOrder(NewRun(n), events)
    ensures RolesOk(Play(NewRun(n), events))
  {
    if events != [] {
      var before := events[..|events| - 1];
      PlayKeepsRoles(n, before);
      PlayOk(n, before);
      AdvanceKeepsRoles(Play(NewRun(n), before), events[|events| - 1]);
    }
  }

  // ---- What can be punished ----

  /** Every transaction given up is watched as revoked, under its own index and with the
      own signature of it. Publishing it is punished with the secret of the counter
      party's point in it exactly when that secret has arrived, which all but the last
      one has, and the recorded role fits. */
  lemma {:induction false} PastIsPunishable(n: Node, events: seq<Event>, k: nat)
    requires Starts(n) && KeepsOrder(NewRun(n), events)
    requires k < |Play(NewRun(n), events).superseded|
    ensures var run := Play(NewRun(n), events);
            var c, w, s := run.node.channel, run.node.watches, run.superseded[k];
            && s.idx == INITIAL_UPDATE_NUMBER - k && RevokedOk(c, w, s, s.idx)
            && var r := PunishAs(c, s.tx, w.txs[s.tx].info.txType);
            if c.state.RenewFinalized? && k + 1 == |run.superseded| then r == Err(Fault)
            else (r.Ok? <==> RoleFits(s.tx, RoleIn(w, s.tx), c.party))
                 && (r.Ok? ==> PointOf(r.value) == CounterPointIn(s.tx, c.party))
  {
    PlayOk(n, events);
    var run := Play(NewRun(n), events);
    var c := run.node.channel;
    assert RevokedOk(c, run.node.watches, run.superseded[k], INITIAL_UPDATE_NUMBER - k);
    PunishIff(c, run.node.watches, run.superseded[k], INITIAL_UPDATE_NUMBER - k);
    assert (INITIAL_UPDATE_NUMBER - k in c.secrets) == (c.updateIdx < INITIAL_UPDATE_NUMBER - k);
  }

  /** A buffer transaction that a settlement replaced carries the right role exactly
      when it is that of the new channel or the party offered it; one that a renewal
      replaced, exactly when the peer offered it. A settle transaction is only ever
      replaced by a renewal, and the penalty finds an output of the peer exactly when
      the first output there is goes to the peer. */
  lemma {:induction false} WhichRolesFit(n: Node, events: seq<Event>, k: nat)
    requires Starts(n) && KeepsOrder(NewRun(n), events)
    requires k < |Play(NewRun(n), events).superseded|
    ensures var run := Play(NewRun(n), events);
            var c, tx := run.node.channel, run.superseded[k].tx;
            && !tx.CloseTx? && Commitment(c).Some?
            && var fits := RoleFits(tx, RoleIn(run.node.watches, tx), c.party);
            && (tx.BufferTx? && NextTx(run, k).SettleTx? ==> (fits <==> k == 0 || tx.offerer == c.party))
            && (tx.BufferTx? && !NextTx(run, k).SettleTx? ==> (fits <==> tx.offerer != c.party))
            && (tx.SettleTx? ==>
                  && !NextTx(run, k).SettleTx?
                  && (fits <==> OutputsOf(tx) != [] && OutputsOf(tx)[0].payee.base == Other(c.party)))
  {
    PlayOk(n, events);
    PlayKeepsRoles(n, events);
    var run := Play(NewRun(n), events);
    assert RevokedOk(run.node.channel, run.node.watches, run.superseded[k], INITIAL_UPDATE_NUMBER - k);
    assert RoleOk(run, k);
  }

  /** One more successful step, with what it makes of the transactions given up. */
  lemma OneMore(n: Node, events: seq<Event>, e: Event, before: Node, after: Node)
    requires KeepsOrder(NewRun(n), events) && Play(NewRun(n), events).node == before
    requires StepOf(before, e).Ok? && StepOf(before, e).value.0 == after
    requires !LeavesOrder(before.channel, e) && Commitment(before.channel).Some?
    ensures KeepsOrder(NewRun(n), events + [e]) && Play(NewRun(n), events + [e]).node == after
    ensures Play(NewRun(n), events + [e]).superseded ==
            Play(NewRun(n), events).superseded
            + (if Commitment(after.channel) == Commitment(before.channel) then []
               else [Superseded(Commitment(before.channel).value, before.channel.ownPoint.idx)])
  {
    assert (events + [e])[..|events|] == events;
  }

  /** A penalty for the accepting role does not spend the output of a buffer
      transaction that the party offered. */
  lemma WrongRole(c: Channel, s: State, p: Party)
    requires c.party == p && s.Established? && s.tx.BufferTx? && s.tx.offerer == p
    requires s.ownSig.key == PublishKey(Other(p), Point(Other(p), INITIAL_UPDATE_NUMBER))
    requires c.secrets == map[INITIAL_UPDATE_NUMBER := Secret(Other(p), INITIAL_UPDATE_NUMBER)]
    ensures PunishAs(c, s.tx, Revoked(INITIAL_UPDATE_NUMBER, s.ownSig, false, RevokedBuffer)) == Err(BadProof)
  {
  }

  /** A renewal that the party offers and an honest peer accepts. */
  lemma RenewalConfirms(n: Node, terms: nat) returns (offer: Event, accept: Event, n1: Node, n2: Node)
    requires Starts(n)
    ensures offer.Do? && !LeavesOrder(n.channel, offer) && StepOf(n, offer).Ok? && n1 == StepOf(n, offer).value.0
    ensures accept.Get? && StepOf(n1, accept).Ok? && n2 == StepOf(n1, accept).value.0
    ensures !LeavesOrder(n1.channel, accept)
    ensures Commitment(n1.channel) == Some(n.channel.state.tx) == Commitment(n2.channel)
    ensures n2.channel == n.channel.(state := n2.channel.state, rollBack := Some(n.channel.state))
    ensures n2.channel.state.RenewConfirmed?
            && n2.channel.state.offerPoint == Point(n.channel.party, INITIAL_UPDATE_NUMBER - 1)
    ensures n2.channel.state.tx.BufferTx? && n2.channel.state.tx.offerPoint == n2.channel.state.offerPoint
    ensures n2.watches == n.watches
  {
    var c := n.channel;
    var peer := Other(c.party);
    var next := Point(c.party, INITIAL_UPDATE_NUMBER - 1);
    var peerNext := Point(peer, INITIAL_UPDATE_NUMBER - 1);
    var tx := BufferTx(INITIAL_UPDATE_NUMBER, terms, c.Total(), c.party, next, peerNext);
    offer := Do(OfferRenew(ContractInput(c.ownCollateral, c.counterCollateral, terms), 0));
    n1 := StepOf(n, offer).value.0;
    accept := Get(RenewAccept(peerNext, ContractSig(tx, peer)));
    assert RenewConfirmOf(n1.channel, accept.message).Ok?;
    n2 := StepOf(n1, accept).value.0;
  }

  /** The peer's finalization completes it, and leaves the former buffer transaction
      watched under the accepting role. */
  lemma RenewalFinalizes(n: Node, s: State) returns (finalize: Event, after: Node)
    requires n.channel.state.RenewConfirmed? && n.channel.rollBack == Some(s) && s.Established?
    requires n.channel.updateIdx == INITIAL_UPDATE_NUMBER && n.channel.secrets == map[]
    requires n.channel.counterPoint == Point(Other(n.channel.party), INITIAL_UPDATE_NUMBER)
    requires n.channel.state.tx != s.tx
    ensures finalize.Get? && StepOf(n, finalize).Ok? && after == StepOf(n, finalize).value.0
    ensures !LeavesOrder(n.channel, finalize)
    ensures after.channel.state.Established? && after.channel.party == n.channel.party
    ensures Commitment(after.channel) == Some(n.channel.state.tx)
    ensures s.tx in after.watches.txs
    ensures after.watches.txs[s.tx].info.txType == Revoked(INITIAL_UPDATE_NUMBER, s.ownSig, false, RevokedBuffer)
    ensures after.channel.secrets == map[INITIAL_UPDATE_NUMBER := Secret(Other(n.channel.party), INITIAL_UPDATE_NUMBER)]
  {
    var c := n.channel;
    var peer := Other(c.party);
    finalize := Get(RenewFinalize(Secret(peer, INITIAL_UPDATE_NUMBER),
                                  AdaptorSig(c.state.tx, peer, PublishKey(c.party, c.state.offerPoint))));
    assert RenewRevokeOf(c, finalize.message).Ok?;
    after := StepOf(n, finalize).value.0;
  }

  /** The party that offered the channel cannot punish the publication of its first
      buffer transaction any more after one renewal with an honest peer: the secret is
      there, but the penalty is built for the accepting party. */
  lemma OwnOfferUnpunishable(n: Node, terms: nat) returns (events: seq<Event>)
    requires Starts(n) && n.channel.counterPoint == Point(Other(n.channel.party), INITIAL_UPDATE_NUMBER)
    requires n.channel.state.tx.offerer == n.channel.party
    ensures KeepsOrder(NewRun(n), events)
    ensures var run := Play(NewRun(n), events);
            var w, tx := run.node.watches, n.channel.state.tx;
            && run.superseded == [Superseded(tx, INITIAL_UPDATE_NUMBER)] && run.node.channel.state.Established?
            && tx in w.txs && w.txs[tx].info.txType.Revoked?
            && PunishAs(run.node.channel, tx, w.txs[tx].info.txType) == Err(BadProof)
  {
    var offer, accept, n1, n2 := RenewalConfirms(n, terms);
    var finalize, n3 := RenewalFinalizes(n2, n.channel.state);
    var one, two := [] + [offer], [] + [offer] + [accept];
    assert Play(NewRun(n), one).node == n1 && Play(NewRun(n), one).superseded == []
           && KeepsOrder(NewRun(n), one) by {
      OneMore(n, [], offer, n, n1);
    }
    assert Play(NewRun(n), two).node == n2 && Play(NewRun(n), two).superseded == []
           && KeepsOrder(NewRun(n), two) by {
      OneMore(n, one, accept, n1, n2);
    }
    events := two + [finalize];
    assert Play(NewRun(n), events).node == n3 && KeepsOrder(NewRun(n), events)
           && Play(NewRun(n), events).superseded == [Superseded(n.channel.state.tx, INITIAL_UPDATE_NUMBER)] by {
      OneMore(n, two, finalize, n2, n3);
    }
    WrongRole(n3.channel, n.channel.state, n.channel.party);
  }
}
