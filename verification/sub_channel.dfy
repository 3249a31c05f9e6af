/** What dlc-manager/src/sub_channel_manager.rs makes of a DLC channel inside a
    Lightning channel: establishing it, closing it off chain, and finding back
    together after messages were lost. */
module SubChannels {

  import opened Results
  import opened ChannelTypes

  /** What the parties put in, in satoshi, and the fee for splitting the channel. */
  datatype Terms = Terms(offerCollateral: nat, acceptCollateral: nat, fee: nat)

  /** A split transaction is determined by what it is built from. */
  datatype SplitTx = SplitTx(offerPoint: Point, acceptPoint: Point, terms: Terms)

  datatype Funding = Original | Glue(split: SplitTx)

  /** The Lightning channel: its funding and, in millisatoshi, its value and what the
      party has of it, the reserve included. The rest is the counter party's. */
  datatype Ln = Ln(funding: Funding, value: nat, own: nat)
  {
    function Counter(): int {
      value - own
    }
  }

  /** `payouts` are those of the party and its counter party once the DLC channel
      inside has been settled. */
  datatype Signed = Signed(ownPoint: Point, counterPoint: Point, split: SplitTx, rollBack: Ln,
                           payouts: Option<(nat, nat)>)

  datatype SubState =
    | Offered(point: Point, terms: Terms)
    | Accepted(offerPoint: Point, acceptPoint: Point, split: SplitTx, rollBack: Ln)
    | Confirmed(ownPoint: Point, counterPoint: Point, split: SplitTx, rollBack: Ln)
    | Finalized(signed: Signed)
    | SignedState(signed: Signed)
    | CloseOffered(signed: Signed, offerBalance: nat, acceptBalance: nat, isOffer: bool)
    | CloseAccepted(signed: Signed, ownBalance: nat, counterBalance: nat, rollBack: Ln)
    | CloseConfirmed(signed: Signed, ownBalance: nat, counterBalance: nat, rollBack: Ln, checkLnSecret: bool)
    | OffChainClosed
    | Rejected

  /** `fee` is the fee the sub channel was first offered at, `fundValue` what the
      Lightning channel held then. */
  datatype SubChannel = SubChannel(updateIdx: nat, state: SubState, isOffer: bool, hasSeed: bool, fee: nat,
                                   fundValue: nat, secrets: map<nat, Secret>)

  datatype Action =
    | ResendOffer(point: Point, terms: Terms)
    | ReAccept
    | ForceSign
    | ResendCloseOffer(acceptBalance: nat)
    | ReAcceptCloseOffer(ownBalance: nat)
    | ResendCloseFinalize(secret: Secret)

  datatype SubNode = SubNode(party: Party, sub: Option<SubChannel>, ln: Ln, actions: seq<Action>)

  /** A commitment signature covers the Lightning channel as its sender sees it. */
  datatype SubMessage =
    | Offer(point: Point, terms: Terms)
    | Accept(point: Point, commitment: Ln)
    | Confirm(commitment: Ln)
    | Finalize
    | Revoke
    | CloseOffer(acceptBalance: nat)
    | CloseAccept(commitment: Ln)
    | CloseConfirm(secret: Secret, commitment: Ln)
    | CloseFinalize(secret: Secret, withCommitmentSecret: bool)
    | RejectOffer

  datatype Flag =
    | FlagOffered | FlagAccepted | FlagConfirmed | FlagFinalized | FlagSigned
    | FlagCloseOffered | FlagCloseAccepted | FlagCloseConfirmed | FlagOffChainClosed

  /** What a party reports of its state when it reconnects. */
  function ReestablishFlag(n: SubNode): Option<Flag> {
    if n.sub.None? then None
    else
      match n.sub.value.state
      case Offered(_, _) => Some(FlagOffered)
      case Accepted(_, _, _, _) => Some(FlagAccepted)
      case Confirmed(_, _, _, _) => Some(FlagConfirmed)
      case Finalized(_) => Some(FlagFinalized)
      case SignedState(_) => Some(FlagSigned)
      case CloseOffered(_, _, _, _) => Some(FlagCloseOffered)
      case CloseAccepted(_, _, _, _) => Some(FlagCloseAccepted)
      case CloseConfirmed(_, _, _, _, _) => Some(FlagCloseConfirmed)
      case OffChainClosed => Some(FlagOffChainClosed)
      case Rejected => None
  }

  type SubStep = Outcome<(SubNode, Option<SubMessage>)>

  // ---- Amounts ----

  /** The fee in two halves, offering and accepting party; the odd satoshi is the offering party's. */
  function PerPartyFee(fee: nat): (r: (nat, nat))
    ensures r.0 + r.1 == fee && 0 <= r.0 - r.1 <= 1
  {
    ((fee + 1) / 2, fee / 2)
  }

  function FeeOf(fee: nat, isOffer: bool): nat {
    if isOffer then PerPartyFee(fee).0 else PerPartyFee(fee).1
  }

  function CollateralOf(terms: Terms, isOffer: bool): nat {
    if isOffer then terms.offerCollateral else terms.acceptCollateral
  }

  /** What both parties keep in the Lightning channel, if both can afford the terms. */
  function ValidateLnValues(ln: Ln, terms: Terms, isOffer: bool): Outcome<(nat, nat)> {
    var own := ln.own - (CollateralOf(terms, isOffer) + FeeOf(terms.fee, isOffer)) * 1000;
    var counter := ln.Counter() - (CollateralOf(terms, !isOffer) + FeeOf(terms.fee, !isOffer)) * 1000;
    if own < DUST_LIMIT * 1000 || counter < DUST_LIMIT * 1000 then Err(BadOffer) else Ok((own, counter))
  }

  /** The Lightning channel after closing, as the party works it out from what it has
      and gets back. */
  function ClosedLn(ln: Ln, fundValue: nat, fee: nat, ownBalance: nat, isOffer: bool): Ln {
    Ln(Original, fundValue, ln.own + (FeeOf(fee, isOffer) + ownBalance) * 1000)
  }

  /** The two parties see the same Lightning channel, so that their signatures fit. */
  predicate SameLn(a: Ln, b: Ln) {
    a.funding == b.funding && a.value == b.value && a.own + b.own == a.value
  }

  // ---- Establishing ----

  function With(n: SubNode, s: SubChannel): SubNode {
    n.(sub := Some(s))
  }

  function InState(n: SubNode, s: SubState): SubNode
    requires n.sub.Some?
  {
    With(n, n.sub.value.(state := s))
  }

  /** The sub channel an offer is for: a new one, or the closed one at the next index. */
  function ForOffer(n: SubNode, isOffer: bool, fee: nat): Outcome<SubChannel> {
    match n.sub
    case None => Ok(SubChannel(INITIAL_UPDATE_NUMBER, Rejected, isOffer, isOffer, fee, n.ln.value, map[]))
    case Some(s) =>
      if !s.state.OffChainClosed? && !s.state.Rejected? then Err(BadState)
      else if s.updateIdx == 0 then Err(Fault)
      else Ok(s.(isOffer := isOffer, updateIdx := s.updateIdx - 1))
  }

  /** The seed is only looked for after the amounts have been checked. */
  function OfferSubChannel(n: SubNode, terms: Terms): SubStep {
    match ForOffer(n, true, terms.fee)
    case Err(e) => Err(e)
    case Ok(s) =>
      match ValidateLnValues(n.ln, terms, true)
      case Err(e) => Err(e)
      case Ok(_) =>
        if !s.hasSeed then Err(Fault)
        else
          var point := PointOf(Secret(n.party, s.updateIdx));
          Ok((With(n, s.(state := Offered(point, terms))), Some(Offer(point, terms))))
  }

  function OnOffer(n: SubNode, m: SubMessage): SubStep
    requires m.Offer?
  {
    match ForOffer(n, false, m.terms.fee)
    case Err(e) => Err(e)
    case Ok(s) =>
      match ValidateLnValues(n.ln, m.terms, false)
      case Err(e) => Err(e)
      case Ok(_) => Ok((With(n, s.(state := Offered(m.point, m.terms))), None))
  }

  /** The collateral of both parties. */
  function Stake(terms: Terms): nat {
    terms.offerCollateral + terms.acceptCollateral
  }

  /** What is left of the Lightning channel above the split transaction. */
  function GlueValue(ln: Ln, terms: Terms, isOffer: bool): (r: nat)
    requires ValidateLnValues(ln, terms, isOffer).Ok?
    ensures r == ValidateLnValues(ln, terms, isOffer).value.0 + ValidateLnValues(ln, terms, isOffer).value.1
  {
    ln.value - (Stake(terms) + terms.fee) * 1000
  }

  /** The Lightning channel above the split transaction. */
  function SplitLn(ln: Ln, split: SplitTx, isOffer: bool): Outcome<Ln> {
    match ValidateLnValues(ln, split.terms, isOffer)
    case Err(e) => Err(e)
    case Ok((own, counter)) => Ok(Ln(Glue(split), GlueValue(ln, split.terms, isOffer), own))
  }

  function AcceptSubChannel(n: SubNode): SubStep {
    if n.sub.None? || !n.sub.value.state.Offered? then Err(BadState)
    else
      var s := n.sub.value;
      var point := PointOf(Secret(n.party, s.updateIdx));
      var split := SplitTx(s.state.point, point, s.state.terms);
      match SplitLn(n.ln, split, false)
      case Err(e) => Err(e)
      case Ok(ln) =>
        Ok((With(n, s.(state := Accepted(s.state.point, point, split, n.ln), hasSeed := true)).(ln := ln),
            Some(Accept(point, ln))))
  }

  function OnAccept(n: SubNode, m: SubMessage): SubStep
    requires m.Accept?
  {
    if n.sub.None? || !n.sub.value.state.Offered? then Err(BadState)
    else
      var s := n.sub.value.state;
      var split := SplitTx(s.point, m.point, s.terms);
      match SplitLn(n.ln, split, true)
      case Err(e) => Err(e)
      case Ok(ln) =>
        if !SameLn(ln, m.commitment) then Err(BadProof)
        else Ok((InState(n, Confirmed(s.point, m.point, split, n.ln)).(ln := ln), Some(Confirm(ln))))
  }

  function OnConfirm(n: SubNode, m: SubMessage): SubStep
    requires m.Confirm?
  {
    if n.sub.None? || !n.sub.value.state.Accepted? then Err(BadState)
    else
      var s := n.sub.value.state;
      if !SameLn(n.ln, m.commitment) then Err(BadProof)
      else Ok((InState(n, Finalized(Signed(s.acceptPoint, s.offerPoint, s.split, s.rollBack, None))), Some(Finalize)))
  }

  function OnFinalize(n: SubNode): SubStep {
    if n.sub.None? || !n.sub.value.state.Confirmed? then Err(BadState)
    else
      var s := n.sub.value.state;
      Ok((InState(n, SignedState(Signed(s.ownPoint, s.counterPoint, s.split, s.rollBack, None))), Some(Revoke)))
  }

  function MarkSigned(n: SubNode): Outcome<SubNode> {
    if n.sub.None? || !n.sub.value.state.Finalized? then Err(BadState)
    else Ok(InState(n, SignedState(n.sub.value.state.signed)))
  }

  function OnRevoke(n: SubNode): SubStep {
    match MarkSigned(n)
    case Err(e) => Err(e)
    case Ok(n') => Ok((n', None))
  }

  function RejectSubChannel(n: SubNode): SubStep {
    if n.sub.None? || !n.sub.value.state.Offered? then Err(BadState)
    else Ok((InState(n, Rejected), Some(RejectOffer)))
  }

  function OnRejectOffer(n: SubNode): SubStep {
    if n.sub.None? then Err(BadOffer)
    else
      match n.sub.value.state
      case Offered(_, _) => Ok((InState(n, Rejected), None))
      case CloseOffered(signed, _, _, _) => Ok((InState(n, SignedState(signed)), None))
      case _ => Err(BadOffer)
  }

  // ---- Closing ----

  /** What a close offer with this balance for its accepting party leaves for the
      other: of all that was put in, or of what a settlement gave to each. */
  function OfferBalance(signed: Signed, acceptBalance: nat, isOffer: bool): Outcome<nat> {
    match signed.payouts
    case None =>
      if Stake(signed.split.terms) < acceptBalance then Err(BadOffer)
      else Ok(Stake(signed.split.terms) - acceptBalance)
    case Some((own, counter)) =>
      if acceptBalance != (if isOffer then counter else own) then Err(BadOffer)
      else Ok(if isOffer then own else counter)
  }

  function OfferClose(n: SubNode, acceptBalance: nat): SubStep {
    if n.sub.None? || !n.sub.value.state.SignedState? then Err(BadState)
    else
      var signed := n.sub.value.state.signed;
      match OfferBalance(signed, acceptBalance, true)
      case Err(e) => Err(e)
      case Ok(offerBalance) =>
        Ok((InState(n, SubState.CloseOffered(signed, offerBalance, acceptBalance, true)),
            Some(SubMessage.CloseOffer(acceptBalance))))
  }

  function OnCloseOffer(n: SubNode, m: SubMessage): SubStep
    requires m.CloseOffer?
  {
    if n.sub.None? || !n.sub.value.state.SignedState? then Err(BadState)
    else
      var signed := n.sub.value.state.signed;
      match OfferBalance(signed, m.acceptBalance, false)
      case Err(e) => Err(e)
      case Ok(offerBalance) =>
        Ok((InState(n, SubState.CloseOffered(signed, offerBalance, m.acceptBalance, false)), None))
  }

  function AcceptClose(n: SubNode): SubStep {
    if n.sub.None? || !n.sub.value.state.CloseOffered? then Err(BadState)
    else if n.sub.value.state.isOffer then Err(BadOffer)
    else
      var s := n.sub.value.state;
      var ln := ClosedLn(n.ln, n.sub.value.fundValue, n.sub.value.fee, s.acceptBalance, false);
      Ok((InState(n, CloseAccepted(s.signed, s.acceptBalance, s.offerBalance, n.ln)).(ln := ln), Some(CloseAccept(ln))))
  }

  function RejectClose(n: SubNode): SubStep {
    if n.sub.None? || !n.sub.value.state.CloseOffered? then Err(BadState)
    else Ok((InState(n, SignedState(n.sub.value.state.signed)), Some(RejectOffer)))
  }

  function OnCloseAccept(n: SubNode, m: SubMessage): SubStep
    requires m.CloseAccept?
  {
    if n.sub.None? || !n.sub.value.state.CloseOffered? then Err(BadState)
    else
      var s := n.sub.value.state;
      var ln := ClosedLn(n.ln, n.sub.value.fundValue, n.sub.value.fee, s.offerBalance, true);
      if !SameLn(ln, m.commitment) then Err(BadProof)
      else
        Ok((InState(n, CloseConfirmed(s.signed, s.offerBalance, s.acceptBalance, n.ln, true)).(ln := ln),
            Some(CloseConfirm(Secret(n.party, n.sub.value.updateIdx), ln))))
  }

  /** The peer's split secret, if it is the one for the point it gave. */
  function StoreSecret(s: SubChannel, signed: Signed, secret: Secret): Outcome<SubChannel> {
    if PointOf(secret) != signed.counterPoint then Err(BadProof)
    else
      match ProvideSecret(s.secrets, s.updateIdx, secret)
      case Err(e) => Err(e)
      case Ok(secrets) => Ok(s.(secrets := secrets, state := OffChainClosed))
  }

  function OnCloseConfirm(n: SubNode, m: SubMessage): SubStep
    requires m.CloseConfirm?
  {
    if n.sub.None? || !n.sub.value.state.CloseAccepted? then Err(BadState)
    else
      match StoreSecret(n.sub.value, n.sub.value.state.signed, m.secret)
      case Err(e) => Err(e)
      case Ok(s) =>
        if !SameLn(n.ln, m.commitment) then Err(BadProof)
        else Ok((With(n, s), Some(CloseFinalize(Secret(n.party, n.sub.value.updateIdx), true))))
  }

  function OnCloseFinalize(n: SubNode, m: SubMessage): SubStep
    requires m.CloseFinalize?
  {
    if n.sub.None? || !n.sub.value.state.CloseConfirmed? then Err(BadState)
    else
      match StoreSecret(n.sub.value, n.sub.value.state.signed, m.secret)
      case Err(e) => Err(e)
      case Ok(s) =>
        if n.sub.value.state.checkLnSecret && !m.withCommitmentSecret then Err(BadProof) else Ok((With(n, s), None))
  }

  function Receive(n: SubNode, m: SubMessage): SubStep {
    match m
    case Offer(_, _) => OnOffer(n, m)
    case Accept(_, _) => OnAccept(n, m)
    case Confirm(_) => OnConfirm(n, m)
    case Finalize => OnFinalize(n)
    case Revoke => OnRevoke(n)
    case CloseOffer(_) => OnCloseOffer(n, m)
    case CloseAccept(_) => OnCloseAccept(n, m)
    case CloseConfirm(_, _) => OnCloseConfirm(n, m)
    case CloseFinalize(_, _) => OnCloseFinalize(n, m)
    case RejectOffer => OnRejectOffer(n)
  }

  // ---- Reconnecting ----

  /** The split secret to send again; after a new offer the index is one too low. */
  function ReconnectSecret(n: SubNode, restoreIndex: bool): Secret
    requires n.sub.Some?
  {
    Secret(n.party, if restoreIndex then n.sub.value.updateIdx + 1 else n.sub.value.updateIdx)
  }

  function Planned(n: SubNode, actions: seq<Action>): SubNode {
    n.(actions := n.actions + actions)
  }

  /** The handler of the peer's reestablish message. */
  function Reestablish(n: SubNode, peer: Option<Flag>): Outcome<SubNode> {
    if n.sub.None? then Ok(n)
    else
      var s := n.sub.value;
      match s.state
      case Offered(point, terms) =>
        if !s.isOffer then Ok(n)
        else if peer == None || peer == Some(FlagOffChainClosed) then Ok(Planned(n, [ResendOffer(point, terms)]))
        else if peer == Some(FlagCloseConfirmed) then
          if !s.hasSeed then Err(Fault)
          else Ok(Planned(n, [ResendCloseFinalize(ReconnectSecret(n, true)), ResendOffer(point, terms)]))
        else Ok(n)
      case Accepted(offerPoint, _, split, rollBack) =>
        Ok(Planned(InState(n, Offered(offerPoint, split.terms)).(ln := rollBack), [ReAccept]))
      case Confirmed(ownPoint, _, split, rollBack) =>
        Ok(InState(n, Offered(ownPoint, split.terms)).(ln := rollBack))
      case Finalized(signed) =>
        if peer == None then Ok(n)
        else if peer == Some(FlagSigned) then Ok(Planned(n, [ForceSign]))
        else
          Ok(Planned(InState(n, Offered(signed.counterPoint, signed.split.terms)).(ln := signed.rollBack), [ReAccept]))
      case CloseOffered(_, _, acceptBalance, isOffer) =>
        if isOffer && peer == Some(FlagSigned) then Ok(Planned(n, [ResendCloseOffer(acceptBalance)])) else Ok(n)
      case CloseAccepted(signed, ownBalance, counterBalance, rollBack) =>
        Ok(Planned(InState(n, SubState.CloseOffered(signed, counterBalance, ownBalance, false)).(ln := rollBack),
                   [ReAcceptCloseOffer(ownBalance)]))
      case CloseConfirmed(signed, ownBalance, counterBalance, rollBack, _) =>
        if peer == None then Ok(n)
        else if peer == Some(FlagCloseAccepted) then
          Ok(InState(n, SubState.CloseOffered(signed, ownBalance, counterBalance, true)).(ln := rollBack))
        else Ok(InState(n, CloseConfirmed(signed, ownBalance, counterBalance, rollBack, false)))
      case OffChainClosed =>
        if peer == None then Ok(n)
        else if !s.hasSeed then Err(Fault)
        else if peer == Some(FlagCloseConfirmed) then Ok(Planned(n, [ResendCloseFinalize(ReconnectSecret(n, false))]))
        else Ok(n)
      case _ => Ok(n)
  }

  /** What one pending action does: the new node, the messages, and whether it is kept. */
  function Perform(n: SubNode, action: Action, usable: bool): (SubNode, seq<SubMessage>, bool) {
    match action
    case ResendOffer(point, terms) => (n, [Offer(point, terms)], false)
    case ReAccept =>
      if !usable then (n, [], true)
      else
        (match AcceptSubChannel(n)
         case Err(_) => (n, [], true)
         case Ok((n', m)) => (n', if m.Some? then [m.value] else [], false))
    case ForceSign =>
      if !usable then (n, [], true)
      else
        (match MarkSigned(n)
         case Err(_) => (n, [], true)
         case Ok(n') => (n', [], false))
    case ResendCloseOffer(acceptBalance) => (n, [SubMessage.CloseOffer(acceptBalance)], false)
    case ReAcceptCloseOffer(_) =>
      if !usable then (n, [], true)
      else
        (match AcceptClose(n)
         case Err(_) => (n, [], true)
         case Ok((n', m)) => (n', if m.Some? then [m.value] else [], false))
    case ResendCloseFinalize(secret) => (n, [CloseFinalize(secret, false)], false)
  }

  /** The first `count` actions in turn; those that are kept go to the back. */
  function PerformAll(n: SubNode, actions: seq<Action>, count: nat, usable: bool): (SubNode, seq<SubMessage>,
                      seq<Action>)
    requires count <= |actions|
  {
    if count == 0 then (n, [], [])
    else
      var (before, messages, retained) := PerformAll(n, actions, count - 1, usable);
      var (after, more, kept) := Perform(before, actions[count - 1], usable);
      (after, messages + more, if kept then retained + [actions[count - 1]] else retained)
  }

  function ProcessActions(n: SubNode, usable: bool): (SubNode, seq<SubMessage>) {
    var (after, messages, retained) := PerformAll(n.(actions := []), n.actions, |n.actions|, usable);
    (after.(actions := retained), messages)
  }
}
