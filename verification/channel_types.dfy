/** The data of a channel between two parties, with cryptography as symbolic terms. */
module ChannelTypes {

  import opened Results

  /** The index of the first state of a channel; indexes count down from it. */
  const INITIAL_UPDATE_NUMBER: nat := 0xFFFF_FFFF_FFFF

  /** Outputs below this amount, in satoshi, are left out of transactions. */
  const DUST_LIMIT: nat := 1000

  datatype Party = Alice | Bob

  function Other(p: Party): Party {
    if p == Alice then Bob else Alice
  }

  /** The secret that the seed of a party yields for an index. */
  datatype Secret = Secret(owner: Party, idx: nat)

  /** The point of a secret. */
  datatype Point = Point(owner: Party, idx: nat)

  function PointOf(s: Secret): Point {
    Point(s.owner, s.idx)
  }

  /** The publish key that the base points of a party and a per-update point yield. */
  datatype PublishKey = PublishKey(base: Party, point: Point)

  /** A transaction is determined by what it is built from. */
  datatype Tx =
    | BufferTx(contract: nat, terms: nat, total: nat, offerer: Party, offerPoint: Point, acceptPoint: Point)
    | SettleTx(offerer: Party, offerPoint: Point, acceptPoint: Point, offerPayout: nat, acceptPayout: nat)
    | CloseTx(offerer: Party, offerPayout: nat, acceptPayout: nat)

  function OwnPointIn(tx: Tx, p: Party): Point
    requires !tx.CloseTx?
  {
    if tx.offerer == p then tx.offerPoint else tx.acceptPoint
  }

  function CounterPointIn(tx: Tx, p: Party): Point
    requires !tx.CloseTx?
  {
    OwnPointIn(tx, Other(p))
  }

  /** What a transaction is built to pay a party. */
  function PaidTo(tx: Tx, p: Party): nat
    requires !tx.BufferTx?
  {
    if tx.offerer == p then tx.offerPayout else tx.acceptPayout
  }

  /** What an output can be spent by; a publish key stands for all keys that its base
      points and its point yield. The script of a buffer output tells the offering
      party from the accepting one. */
  datatype Script =
    | BufferScript(offer: PublishKey, accept: PublishKey)
    | SettleScript(payee: PublishKey, counter: PublishKey)

  /** The outputs of a buffer or settle transaction, in order. */
  function OutputsOf(tx: Tx): seq<Script> {
    match tx
    case BufferTx(_, _, _, offerer, offerPoint, acceptPoint) =>
      [BufferScript(PublishKey(offerer, offerPoint), PublishKey(Other(offerer), acceptPoint))]
    case SettleTx(offerer, offerPoint, acceptPoint, offerPayout, acceptPayout) =>
      var offer, accept := PublishKey(offerer, offerPoint), PublishKey(Other(offerer), acceptPoint);
      (if offerPayout >= DUST_LIMIT then [SettleScript(offer, accept)] else [])
      + (if acceptPayout >= DUST_LIMIT then [SettleScript(accept, offer)] else [])
    case CloseTx(_, _, _) => []
  }

  /** A signature of a transaction, encrypted under a publish key. */
  datatype AdaptorSig = AdaptorSig(tx: Tx, signer: Party, key: PublishKey)

  /** The signatures of a party on the transactions of the contract below a buffer transaction. */
  datatype ContractSig = ContractSig(buffer: Tx, signer: Party)

  datatype Contract = Contract(id: nat, terms: nat, total: nat, isOfferParty: bool)

  datatype State =
    | Established(contract: nat, counterSig: AdaptorSig, ownSig: AdaptorSig, tx: Tx, isOffer: bool, total: nat)
    | SettledOffered(counterPayout: nat, nextPoint: Point)
    | SettledReceived(ownPayout: nat, counterPayout: nat, counterNext: Point)
    | SettledAccepted(counterNext: Point, ownNext: Point, ownSig: AdaptorSig, tx: Tx, ownPayout: nat,
                      counterPayout: nat)
    | SettledConfirmed(tx: Tx, counterSig: AdaptorSig, counterNext: Point, ownNext: Point, ownSig: AdaptorSig,
                       ownPayout: nat, counterPayout: nat)
    | Settled(tx: Tx, counterSig: AdaptorSig, ownSig: AdaptorSig, ownPayout: nat, counterPayout: nat)
    | RenewOffered(offered: Contract, counterPayout: nat, offerNext: Point, isOffer: bool)
    | RenewAccepted(offered: Contract, offerPoint: Point, acceptPoint: Point, tx: Tx, ownPayout: nat)
    | RenewConfirmed(contract: nat, offerPoint: Point, acceptPoint: Point, tx: Tx, ownSig: AdaptorSig,
                     ownPayout: nat, total: nat)
    | RenewFinalized(contract: nat, prevOfferPoint: Point, tx: Tx, counterSig: AdaptorSig, ownSig: AdaptorSig,
                     ownPayout: nat, total: nat)
    | Closing(tx: Tx, contract: nat, isInitiator: bool)
    | SettledClosing(tx: Tx, isOffer: bool, isInitiator: bool)
    | CloseOffered(counterPayout: nat, tx: Tx, isOffer: bool)

  datatype Channel = Channel(
    id: nat, party: Party, ownCollateral: nat, counterCollateral: nat,
    state: State, rollBack: Option<State>, updateIdx: nat,
    ownPoint: Point, counterPoint: Point, secrets: map<nat, Secret>)
  {
    function Total(): nat {
      ownCollateral + counterCollateral
    }
  }

  datatype Message =
    | SettleOffer(counterPayout: nat, nextPoint: Point)
    | SettleAccept(nextPoint: Point, sig: AdaptorSig)
    | SettleConfirm(prevSecret: Secret, sig: AdaptorSig)
    | SettleFinalize(prevSecret: Secret)
    | RenewOffer(counterPayout: nat, nextPoint: Point, terms: nat)
    | RenewAccept(nextPoint: Point, contractSig: ContractSig)
    | RenewConfirm(sig: AdaptorSig, contractSig: ContractSig)
    | RenewFinalize(prevSecret: Secret, sig: AdaptorSig)
    | RenewRevoke(prevSecret: Secret)
    | Reject
    | CloseOffer(counterPayout: nat)

  /** BadState and BadOffer are refusals; BadProof is a check of a signature or a
      secret that failed; Fault is a panic or an arithmetic overflow. */
  datatype ChannelError = BadState | BadOffer | BadProof | Fault

  type Outcome<T> = Result<T, ChannelError>

  /** The store of the peer's secrets takes a secret only for the index it was
      derived for. */
  function ProvideSecret(secrets: map<nat, Secret>, idx: nat, secret: Secret): Outcome<map<nat, Secret>> {
    if secret.idx == idx then Ok(secrets[idx := secret]) else Err(BadProof)
  }
}
