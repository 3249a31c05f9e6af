/** The contracts of one party over its runs: the signatures that the peer has to give
    for them, and what becomes of each. */
module ChannelContracts {

  import opened Results
  import opened ChannelTypes
  import opened ChannelUpdates
  import opened ChainMonitoring
  import opened ChannelHandlers
  import opened ChannelParty
  import opened ChannelRuns

  // ---- Signatures on contracts ----

  /** The buffer transaction that a party in this state relies on. */
  function ReliesOn(s: State): Option<Tx> {
    match s
    case Established(_, _, _, tx, _, _) => Some(tx)
    case RenewConfirmed(_, _, _, tx, _, _, _) => Some(tx)
    case RenewFinalized(_, _, tx, _, _, _, _) => Some(tx)
    case _ => None
  }

  predicate Relies(c: Channel, tx: Tx) {
    ReliesOn(c.state) == Some(tx) || (c.rollBack.Some? && ReliesOn(c.rollBack.value) == Some(tx))
  }

  /** The event brings a party its peer's signatures on the contract below `tx`. */
  predicate BringsSignatures(e: Event, tx: Tx, peer: Party) {
    && e.Get? && (e.message.RenewAccept? || e.message.RenewConfirm?)
    && e.message.contractSig == ContractSig(tx, peer)
  }

  lemma ActionKeepsContracts(n: Node, a: Action, tx: Tx)
    requires Act(n, a).Ok? && Relies(Act(n, a).value.0.channel, tx)
    ensures Relies(n.channel, tx)
  {
  }

  lemma MessageKeepsContracts(n: Node, m: Message, tx: Tx)
    requires Receive(n, m).Ok? && Relies(Receive(n, m).value.0.channel, tx)
    ensures Relies(n.channel, tx) || BringsSignatures(Get(m), tx, Other(n.channel.party))
  {
  }

  lemma StepKeepsParty(n: Node, e: Event)
    requires StepOf(n, e).Ok?
    ensures StepOf(n, e).value.0.channel.party == n.channel.party
  {
  }

  lemma {:induction false} PartyKept(n: Node, events: seq<Event>)
    ensures Play(NewRun(n), events).node.channel.party == n.channel.party
  {
    if events != [] {
      PartyKept(n, events[..|events| - 1]);
      var run := Play(NewRun(n), events[..|events| - 1]);
      if StepOf(run.node, events[|events| - 1]).Ok? {
        StepKeepsParty(run.node, events[|events| - 1]);
      }
    }
  }

  /** What a party has from the start, or has got the peer's signatures for. */
  ghost predicate Backed(n: Node, events: seq<Event>, tx: Tx) {
    || Relies(n.channel, tx)
    || exists k :: 0 <= k < |events| && BringsSignatures(events[k], tx, Other(n.channel.party))
  }

  /** Whatever a party does and gets, in order or not: it relies on no contract but those
      it began with and those that the peer has sent it the signatures for. */
  lemma {:induction false} ContractsAreSigned(n: Node, events: seq<Event>, tx: Tx)
    requires Relies(Play(NewRun(n), events).node.channel, tx)
    ensures Backed(n, events, tx)
  {
    if events != [] {
      var last := |events| - 1;
      var before := events[..last];
      var run := Play(NewRun(n), before);
      PartyKept(n, before);
      if Relies(run.node.channel, tx) {
        ContractsAreSigned(n, before, tx);
        if k :| 0 <= k < |before| && BringsSignatures(before[k], tx, Other(n.channel.party)) {
          assert events[k] == before[k];
        }
      } else {
        match events[last]
        case Do(a) => ActionKeepsContracts(run.node, a, tx);
        case Get(m) => MessageKeepsContracts(run.node, m, tx);
      }
    }
  }

  lemma BroadcastIsReliedOn(c: Channel, settlementKnown: bool)
    requires var r := ForceClose(c, settlementKnown); r.Ok? && !r.value.from.Settled?
    ensures Relies(c, ForceClose(c, settlementKnown).value.tx)
  {
    if !IsPublishable(c.state) {
      assert c.rollBack.Some?;
    }
  }

  /** So the contract below a buffer transaction that a party broadcasts is one that the
      peer has signed, or that the channel began with. */
  lemma {:induction false} BroadcastContractIsSigned(n: Node, events: seq<Event>, settlementKnown: bool)
    requires var r := ForceClose(Play(NewRun(n), events).node.channel, settlementKnown);
             r.Ok? && !r.value.from.Settled?
    ensures Backed(n, events, ForceClose(Play(NewRun(n), events).node.channel, settlementKnown).value.tx)
  {
    BroadcastIsReliedOn(Play(NewRun(n), events).node.channel, settlementKnown);
    ContractsAreSigned(n, events, ForceClose(Play(NewRun(n), events).node.channel, settlementKnown).value.tx);
  }

  // ---- Closed contracts ----

  /** A state names the contract below its buffer transaction. */
  predicate Names(s: State) {
    match s
    case Established(contract, _, _, tx, _, _) => tx.BufferTx? && tx.contract == contract
    case RenewAccepted(offered, _, _, tx, _) => tx.BufferTx? && tx.contract == offered.id
    case RenewConfirmed(contract, _, _, tx, _, _, _) => tx.BufferTx? && tx.contract == contract
    case RenewFinalized(contract, _, tx, _, _, _, _) => tx.BufferTx? && tx.contract == contract
    case _ => true
  }

  predicate ContractsNamed(c: Channel) {
    Names(c.state) && (c.rollBack.Some? ==> Names(c.rollBack.value))
  }

  /** The contracts of the buffer transactions among those given up. */
  function ContractsOf(superseded: seq<Superseded>): seq<nat> {
    if superseded == [] then []
    else
      var last := superseded[|superseded| - 1].tx;
      ContractsOf(superseded[..|superseded| - 1]) + (if last.BufferTx? then [last.contract] else [])
  }

  function Ids(closed: seq<ClosedContract>): seq<nat> {
    if closed == [] then [] else Ids(closed[..|closed| - 1]) + [closed[|closed| - 1].contract]
  }

  lemma ActionNames(n: Node, a: Action)
    requires ContractsNamed(n.channel) && Act(n, a).Ok?
    ensures ContractsNamed(Act(n, a).value.0.channel)
  {
  }

  lemma MessageNames(n: Node, m: Message)
    requires ContractsNamed(n.channel) && Receive(n, m).Ok?
    ensures ContractsNamed(Receive(n, m).value.0.channel)
  {
  }

  lemma AdvanceNames(run: Run, e: Event)
    requires ContractsNamed(run.node.channel)
    ensures ContractsNamed(Advance(run, e).node.channel)
  {
    if StepOf(run.node, e).Ok? {
      match e
      case Do(a) => ActionNames(run.node, a);
      case Get(m) => MessageNames(run.node, m);
    }
  }

  /** What a step closes. */
  predicate Closes(n: Node, n': Node, former: State) {
    if former.Established? then
      |n'.closed| > 0 && n'.closed[..|n'.closed| - 1] == n.closed
      && n'.closed[|n'.closed| - 1].contract == former.contract
    else n'.closed == n.closed
  }

  lemma ReplacingCloses(n: Node, e: Event)
    requires ChannelOk(n.channel) && Replacing(e) && StepOf(n, e).Ok?
    ensures Closes(n, StepOf(n, e).value.0, Anchor(n.channel))
  {
  }

  lemma OtherClosesNothing(n: Node, e: Event)
    requires !Replacing(e) && StepOf(n, e).Ok?
    ensures StepOf(n, e).value.0.closed == n.closed
  {
  }

  ghost predicate ClosedOk(start: Node, run: Run) {
    Ids(run.node.closed) == Ids(start.closed) + ContractsOf(run.superseded)
  }

  /** The state that is replaced, */
  lemma ReplacedIsStable(n: Node, e: Event)
    requires InOrder(n.channel) && ContractsNamed(n.channel) && Replacing(e) && StepOf(n, e).Ok?
    ensures var former := Anchor(n.channel);
            && IsStable(former) && former.Established? == former.tx.BufferTx?
            && (former.Established? ==> former.contract == former.tx.contract)
  {
  }

  /** and how its transaction goes into the records. */
  lemma ReplacingGivesUp(run: Run, e: Event) returns (given: Superseded)
    requires RunOk(run) && Replacing(e) && StepOf(run.node, e).Ok? && IsStable(Anchor(run.node.channel))
    ensures given.tx == Anchor(run.node.channel).tx && Advance(run, e).superseded == run.superseded + [given]
  {
    var (n, reply) := StepOf(run.node, e).value;
    given := Superseded(Anchor(run.node.channel).tx, run.node.channel.updateIdx);
    assert Recorded(run, n, reply).superseded == run.superseded + [given] by {
      ReplacingReplaces(run.node, e);
      PastKept(run, n, reply);
    }
  }

  lemma ClosesInStep(n: Node, n': Node, past: seq<Superseded>, given: Superseded, former: State, base: seq<nat>)
    requires Ids(n.closed) == base + ContractsOf(past) && Closes(n, n', former)
    requires IsStable(former) && given.tx == former.tx && former.Established? == former.tx.BufferTx?
    requires former.Established? ==> former.contract == former.tx.contract
    ensures Ids(n'.closed) == base + ContractsOf(past + [given])
  {
    assert (past + [given])[..|past|] == past;
  }

  lemma ReplacingKeepsClosed(start: Node, run: Run, e: Event)
    requires RunOk(run) && ContractsNamed(run.node.channel) && ClosedOk(start, run)
    requires Replacing(e) && StepOf(run.node, e).Ok?
    ensures ClosedOk(start, Advance(run, e))
  {
    ReplacedIsStable(run.node, e);
    var given := ReplacingGivesUp(run, e);
    ReplacingCloses(run.node, e);
    ClosesInStep(run.node, Advance(run, e).node, run.superseded, given, Anchor(run.node.channel), Ids(start.closed));
  }

  lemma OtherKeepsClosed(start: Node, run: Run, e: Event)
    requires RunOk(run) && ClosedOk(start, run) && !LeavesOrder(run.node.channel, e)
    requires !Replacing(e) && StepOf(run.node, e).Ok?
    ensures ClosedOk(start, Advance(run, e))
  {
    OtherClosesNothing(run.node, e);
    if e.Get? && e.message.RenewRevoke? {
      assert Advance(run, e).superseded == run.superseded;
    } else {
      OtherHolds(run.node, e);
      assert Advance(run, e).superseded == run.superseded;
    }
  }

  /** In order, the contracts that a party closes are those of the buffer transactions it
      gives up: each once, none left out, in the same order. */
  lemma {:induction false} ContractsAreClosed(n: Node, events: seq<Event>)
    requires Starts(n) && ContractsNamed(n.channel) && KeepsOrder(NewRun(n), events)
    ensures ContractsNamed(Play(NewRun(n), events).node.channel) && ClosedOk(n, Play(NewRun(n), events))
  {
    if events != [] {
      var before, e := events[..|events| - 1], events[|events| - 1];
      var run := Play(NewRun(n), before);
      ContractsAreClosed(n, before);
      PlayOk(n, before);
      AdvanceNames(run, e);
      if StepOf(run.node, e).Ok? {
        if Replacing(e) {
          ReplacingKeepsClosed(n, run, e);
        } else {
          OtherKeepsClosed(n, run, e);
        }
      }
    }
  }
}
