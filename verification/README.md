# Verification of the rust-dlc core

A Dafny model of the parts of rust-dlc in which mistakes lose money: the update
protocol of DLC channels and what is watched on chain for it, the sub channels
inside Lightning channels and their recovery after a disconnect, and the way from
a payout curve to the digit prefixes that adaptor signatures are made for. Check
all of it with `dafny verify dfyconfig.toml`.

## What is modelled

**Numeric outcomes.** `payout_rounding.dfy`, `payout_curve.dfy`, `payout_ranges.dfy`
and `payout_pieces.dfy` follow `payout_curve.rs`, with `payout_interpolation.dfy` on
what its pieces evaluate to: piecewise curves, their rounding,
and the run-length encoded ranges made from them, proved to be the maximal runs of
a pointwise definition of what a curve pays. `payout_conversion.dfy` is the message
form of curves. `positional.dfy`, `digit_cover.dfy` and `digit_decomposition.dfy`
are the cover of a range by digit prefixes, proved exact and smallest.
`trie_generation.dfy` puts ranges, padding and covers together for one oracle.
`combination_iterator.dfy` is the enumeration of oracle combinations.

**DLC channels.** Keys, points, secrets, transactions and signatures are terms
(`channel_types.dfy`). Each update function of `channel_updater.rs` is a function on
channel values (`channel_updates.dfy`) that an in-place method implements
(`signed_channel.dfy`); likewise for the handlers of `manager.rs`
(`channel_handlers.dfy`, `channel_manager.dfy`) and for the chain monitor
(`chain_monitor.dfy`). `channel_party.dfy` and `channel_runs.dfy` are about one party
and a peer that may send anything: which two steps take a channel out of order, and
what holds without them. `channel_penalty.dfy` is about what the party can punish then,
`channel_watch.dfy` about what it watches for, and `channel_contracts.dfy` about the
contracts below its transactions. `channel_pair.dfy` is about two honest
parties and two message queues.

**Sub channels.** `sub_channel.dfy` and `sub_channel_manager.dfy` follow
`sub_channel_manager.rs` in the same two layers. `sub_channel_pair.dfy` is the protocol
between two parties, `sub_channel_actions.dfy` and `sub_channel_recovery.dfy` say when
they find back together after messages were lost, and `sub_channel_runs.dfy` follows the balances over whole runs.

The rows of `SignedChannels`, `ChannelManager` and `SubChannelManagement`, last in the
table below, are one layer: each says that code which works in place does what a step
function of the model does, so that the lemmas about runs are about that code.

## What does not hold

Some properties one would expect fail, and the lemmas say exactly when.

- A peer that accepts a renewal it has offered itself makes a party send its current
  secret too early, because the acceptance is not checked against who made the offer
  (`PeersOfferRevealsTooEarly`; `ReceiveOk` and `InOrderIff` say that no other message
  does, `PeersOfferCarriedOn` for which points).
- The penalty for a revoked transaction is built for the role recorded with it, and
  that is often the wrong one: renewals always record the accepting role, settlements
  after a renewal the offering one. A penalty for the wrong role spends nothing
  (`PunishIff`, `WhichRolesFit`); the party that offered the channel cannot punish its
  first buffer transaction after one renewal (`OwnOfferUnpunishable`).
- A party that has confirmed a renewal does not watch for the new buffer transaction,
  which the peer can already complete, until the finalization (`SignedAreWatched`).
- A revocation lost together with a close offer behind it strands both parties of a
  sub channel for good (`RevokeCanBeLost`, `StrandedForGood`), and the lost rejection
  of a sub channel puts their indexes out of step (`LostRejectPutsOutOfStep`,
  `OutOfStepOffer`); every other loss is recovered from (`ReconnectConverges`).
- A sub channel that is offered again at another fee rate keeps the rate of its
  first offer (`FeeIsThatOfFirstOffer`), so closing reckons with another fee than opening
  did: the acceptance of a close offer is refused (`CloseAcceptTakenIff`), and the sub
  channel can never be closed off chain (`OtherFeeNeverCloses`, `ReofferedAtOtherFee`).
- A party that rejected the first offer of a sub channel panics when it makes an offer
  itself, for want of a split seed (`OfferAfterRejecting`, `FirstOfferHasNoSeed`).
- A collaborative close offered in the middle of a negotiation takes the channel out
  of order (`ActOk`) and makes closing by force panic (`CloseOfferKeepsFallback`).
  After a renewal, the party that did not offer it refuses close offers
  (`RenewalCompletes`, `CollaborativeCloseSumsToZero`).
- While a party is in RenewFinalized, the handler for the newest revoked transaction
  panics (`PastIsPunishable`); in SettledConfirmed, closing by force publishes a
  transaction whose secret is out (`ForceCloseWorks`).
- A range that is all outcomes becomes the empty prefix, which the digit trie
  refuses (`Generate`, `GenerateForCurve`).
- The shortcuts for two-point pieces differ from the general code for points with
  extra precision and for constants that round differently along the piece
  (`LineIsInterpolation`, `ConstantShortcut`).
- Only continuous payout functions survive the message form (`FunctionRoundTrip`).

## What is assumed

- Terms are equal only when built alike: no hash or signature collisions, and secrets
  of different parties or indexes differ. The store of the peer's secrets takes a
  secret only for the index it was derived for ("Efficient Per-commitment Secret
  Storage" in BOLT #3); LDK's own check is weaker for odd indexes.
- Runs of one party start with a new channel (`ChannelRuns.Starts`); every action and
  every message is part of them.
- Runs of two parties (`ChannelPair.Allowed`): nobody accepts a renewal of their own,
  and no collaborative close is offered.
- Runs of two parties with a sub channel (`SubChannelPair.Allowed`): one party starts
  each negotiation, nobody answers an own offer, and the Lightning channel becomes usable
  and planned actions are performed before the next message or disconnect.

## Model

| member | source | states |
|---|---|---|
| `Positional.ExtendsIffInside` | dlc-trie/src/digit_decomposition.rs:100-194 | the digits of an outcome extend a prefix exactly when the outcome lies in the interval of the prefix |
| `DigitCover.MaximalTilingIsBest` | dlc-trie/src/digit_decomposition.rs:100-194 | adjacent maximal prefixes cover a range exactly, without overlap, and no other set of prefixes covering exactly that range is smaller |
| `DigitDecomposition.DecomposeValue` | dlc-trie/src/digit_decomposition.rs:8-22 | the digits of a value, most significant first, padded with zeros to the number of digits |
| `DigitDecomposition.ComposeValue` | dlc-trie/src/digit_decomposition.rs:26-34 | the number that digits stand for |
| `DigitDecomposition.ComposeDecomposeRoundTrip` | dlc-trie/src/digit_decomposition.rs:8-34 | composing undoes decomposing, and decomposing undoes composing |
| `DigitDecomposition.TakePrefix` | dlc-trie/src/digit_decomposition.rs:77-90 | the longest common prefix is taken off both arguments; equal arguments are used up |
| `DigitDecomposition.RemoveTail` | dlc-trie/src/digit_decomposition.rs:94-98 | trailing copies of a digit go, but the first digit stays |
| `DigitDecomposition.CoverHead` | dlc-trie/src/digit_decomposition.rs:100-194 | the first loop: the prefixes from the start up to the next change of the first digit, in order and as large as the range allows |
| `DigitDecomposition.CoverMiddle` | dlc-trie/src/digit_decomposition.rs:100-194 | the second loop: one single-digit prefix for each first digit in between |
| `DigitDecomposition.CoverTail` | dlc-trie/src/digit_decomposition.rs:100-194 | the third loop: the prefixes from there to the end of the range |
| `DigitDecomposition.CoverRemaining` | dlc-trie/src/digit_decomposition.rs:100-194 | the three parts together, below the common prefix, with the bound on their number |
| `DigitDecomposition.GroupByIgnoringDigits` | dlc-trie/src/digit_decomposition.rs:100-194 | every outcome of the range extends exactly one prefix, no other outcome extends any, no exact cover is smaller, and there are at most (base-1)*(2*nb_digits-1) prefixes |
| `CombinationIteration.CombinationIterator.constructor` | dlc-trie/src/combination_iterator.rs:18-28 | an iterator starts before the first of all selections |
| `CombinationIteration.CombinationIterator.Next` | dlc-trie/src/combination_iterator.rs:43-72 | each call yields the next selection in lexicographic order, and None exactly after the last |
| `CombinationIteration.CombinationIterator.GetIndexForCombination` | dlc-trie/src/combination_iterator.rs:32-40 | for a fresh iterator the result is Some exactly for increasing tuples over [0, n), and is the position in lexicographic order |
| `CombinationIteration.AdvanceIsNext` | dlc-trie/src/combination_iterator.rs:51-66 | incrementing the last entry that can grow and restarting the ones after it leads to the next selection; the test on the first entry detects the end |
| `CombinationIteration.SelectionsSorted` | dlc-trie/src/combination_iterator.rs:43-72 | the enumeration is strictly increasing in lexicographic order |
| `CombinationIteration.RankIsPosition` | dlc-trie/src/combination_iterator.rs:32-72 | the position of a selection is its lexicographic rank |
| `CombinationIteration.EverySelectionIsListed` | dlc-trie/src/combination_iterator.rs:43-72 | no increasing tuple is missed |
| `CombinationIteration.IndexedExactlyOnce` | dlc-trie/src/combination_iterator.rs:32-72 | exactly the increasing tuples are enumerated, each once, C(n, k) in all |
| `PayoutRounding.Validate` | dlc-manager/src/payout_curve.rs:541-567 | accepts exactly non-empty intervals that start at zero and strictly increase, and says which of the three fails |
| `PayoutRounding.BinarySearch` | dlc-manager/src/payout_curve.rs:517-523 | the contract of the library search: the matching index, or the place to insert at |
| `PayoutRounding.ModulusIsLastStarted` | dlc-manager/src/payout_curve.rs:517-525 | the modulus in force is that of the last interval starting at or before the outcome |
| `PayoutRounding.RoundsToNearest` | dlc-manager/src/payout_curve.rs:527-537 | a payout is rounded to the nearest multiple of the modulus, ties upwards |
| `PayoutRounding.RoundMonotone` | dlc-manager/src/payout_curve.rs:527-537 | a larger payout never rounds to less |
| `PayoutCurve.Interpolate` | dlc-manager/src/payout_curve.rs:322-341 | the two loops compute the Lagrange interpolation |
| `PayoutCurve.InterpolatesPoints` | dlc-manager/src/payout_curve.rs:322-341 | the interpolating polynomial goes through its points, extra precision included |
| `PayoutInterpolation.EvaluatesAtPoint` | dlc-manager/src/payout_curve.rs:291-341 | a polynomial piece takes its payouts at its points, with extra precision from three points on |
| `PayoutInterpolation.EvaluatesPolynomial` | dlc-manager/src/payout_curve.rs:291-341 | at every outcome it is the value of any polynomial with at most as many coefficients as it has points that does so: there is only one |
| `PayoutInterpolation.EvaluatesHyperbola` | dlc-manager/src/payout_curve.rs:449-468 | a hyperbola piece has a value at an outcome exactly if its hyperbola has a point there on the branch it asks for, and the value is the payout of that point |
| `PayoutCurve.PaysNearest` | dlc-manager/src/payout_curve.rs:162-188 | a payout is the nearest multiple of the modulus to that value, at most the total; it fails exactly for no value, a negative one, and one that rounds above the total, each with its own error |
| `PayoutCurve.GetCurRange` | dlc-manager/src/payout_curve.rs:194-217 | takes off the last range, or starts with one for the first outcome |
| `PayoutCurve.ComputeRangePayouts` | dlc-manager/src/payout_curve.rs:229-276 | the loop over the outcomes of a piece, extending the last range or adding one, and stopping at the first error |
| `PayoutCurve.PieceToRangePayouts` | dlc-manager/src/payout_curve.rs:352-371 | constant pieces lengthen the last range without evaluating, others go through the loop |
| `PayoutCurve.ToRangePayouts` | dlc-manager/src/payout_curve.rs:99-109 | piece after piece, until one fails |
| `PayoutRanges.ValidIffDefined` | dlc-manager/src/payout_curve.rs:44-97 | a curve is valid exactly if it is continuous and defined for the outcomes up to the maximum and no others |
| `PayoutRanges.RangesAreThePayouts` | dlc-manager/src/payout_curve.rs:99-109 | for a continuous curve the ranges are contiguous from the first to the last outcome, share out the total, are maximal runs, and carry what the curve pays at each outcome; an error is that of the first outcome without a payout |
| `PayoutRanges.SucceedsIfAllPay` | dlc-manager/src/payout_curve.rs:99-109 | ranges are generated exactly when every outcome has a payout |
| `PayoutRanges.RunLengthsUnique` | dlc-manager/src/payout_curve.rs:229-276 | there is no other list of maximal runs with the same payouts |
| `PayoutRanges.PieceDecides` | dlc-manager/src/payout_curve.rs:229-276 | after its first outcome a piece pays its own rounded evaluation, a constant piece what was paid at its first outcome |
| `PayoutPieces.LineMonotone` | dlc-manager/src/payout_curve.rs:308-320 | a two-point line runs monotonically between its payouts |
| `PayoutPieces.LinearNeverFails` | dlc-manager/src/payout_curve.rs:162-188 | a line between payouts within the total has a payout at each of its outcomes |
| `PayoutPieces.LinearPiece` | dlc-manager/src/payout_curve.rs:229-276 | such a line gives no error, offers that go strictly one way, and at most floor(total/modulus)+2 ranges |
| `PayoutPieces.LineIsInterpolation` | dlc-manager/src/payout_curve.rs:308-341 | the shortcut for two points is the interpolation exactly when neither point has extra precision |
| `PayoutPieces.ConstantShortcut` | dlc-manager/src/payout_curve.rs:352-371 | the constant shortcut gives the ranges of the general loop exactly when every later outcome rounds to what is paid at the first |
| `PayoutPieces.ConstantShortcutOneModulus` | dlc-manager/src/payout_curve.rs:352-371 | with one modulus across the piece that is so exactly when there is no range yet or the continued range pays the rounded constant |
| `PayoutConversion.MessageOf` | dlc-manager/src/conversion_utils.rs:319-365 | the message lists for each piece its left end point, its inner points in their order, or its coefficients under their own names, and the last end point of the function |
| `PayoutConversion.FunctionOf` | dlc-manager/src/conversion_utils.rs:367-415 | a message is read piece by piece in the same way, each piece ending where the next one starts |
| `PayoutConversion.AscendingMessage` | dlc-manager/src/conversion_utils.rs:367-415 | a polynomial piece of a message is read as one with ascending points exactly when its points ascend in the message |
| `PayoutConversion.PieceRoundTrip` | dlc-manager/src/conversion_utils.rs:319-415 | a piece survives exactly when it is given back its own right end point |
| `PayoutConversion.FunctionRoundTrip` | dlc-manager/src/conversion_utils.rs:319-384 | a payout function survives the message form exactly when it is continuous |
| `PayoutConversion.SerRoundTrip` | dlc-manager/src/conversion_utils.rs:319-415 | every message form with a piece is that of a continuous function and survives |
| `PayoutConversion.SharingIsContinuity` | dlc-manager/src/payout_curve.rs:22-27 | the continuity used here is that of the payout curves |
| `TrieGeneration.PadRangePayouts` | dlc-trie/src/digit_decomposition.rs:42-73 | stretches only the two outer boundaries so that the ranges partition all outcomes; does nothing to ranges that do |
| `TrieGeneration.EmptyPrefixIffEverything` | dlc-trie/src/digit_trie.rs:290-305 | the smallest cover of a range holds the empty prefix exactly when the range is all outcomes |
| `TrieGeneration.MultiOracleTrie.Insert` | dlc-trie/src/digit_trie.rs:293-305 | the empty path and digits above the base are refused, anything else is stored under its path |
| `TrieGeneration.MultiOracleTrie.InsertGroups` | dlc-trie/src/multi_oracle_trie_with_diff.rs:66-79 | the inner loop: one consecutively numbered entry per group, inserted under its path |
| `TrieGeneration.MultiOracleTrie.AddRange` | dlc-trie/src/multi_oracle_trie_with_diff.rs:59-80 | one range becomes the entries of its smallest exact cover |
| `TrieGeneration.MultiOracleTrie.Generate` | dlc-trie/src/multi_oracle_trie_with_diff.rs:53-99 | the loop over all ranges; it fails exactly when one range is all outcomes |
| `TrieGeneration.InfoAt` | dlc-trie/src/utils.rs:129-149 | entries are numbered consecutively from the start index and carry the index of their range |
| `TrieGeneration.EveryOutcomeIsServed` | dlc-trie/src/multi_oracle_trie_with_diff.rs:53-99 | the digits of every outcome extend the prefix of exactly one entry, which is for the first oracle and whose index is that of the range of the outcome |
| `TrieGeneration.TrieDecides` | dlc-trie/src/multi_oracle_trie_with_diff.rs:53-99 | in a new trie every outcome finds exactly one stored path, and the value there names its range |
| `TrieGeneration.CurveToTrie` | dlc-trie/src/multi_oracle_trie_with_diff.rs:53-99 | the path found leads to what the curve pays at the outcome |
| `TrieGeneration.GenerateForCurve` | dlc-manager/src/contract/numerical_descriptor.rs:57-68 | from a validated curve to the trie, end to end; the one case that fails is a curve that pays the same everywhere |
| `ChainMonitoring.ChainMonitor.AddTx` | dlc-manager/src/chain_monitor.rs:91-113 | watches a transaction, and the output of a buffer transaction |
| `ChainMonitoring.ChainMonitor.CleanupChannel` | dlc-manager/src/chain_monitor.rs:121-129 | drops all entries of one channel and no others |
| `ChainMonitoring.ChainMonitor.RemoveTx` | dlc-manager/src/chain_monitor.rs:131-134 | drops one transaction |
| `ChainMonitoring.ChainMonitor.ConfirmTx` | dlc-manager/src/chain_monitor.rs:144-146 | marks a watched transaction as confirmed |
| `ChainMonitoring.ChainMonitor.ConfirmTxo` | dlc-manager/src/chain_monitor.rs:148-150 | marks a watched output as spent |
| `ChainMonitoring.ChainMonitor.DidWeOfferLastChannelSettlement` | dlc-manager/src/chain_monitor.rs:153-187 | finds the role in some revoked buffer transaction of the channel, exactly when there is one |
| `ChainMonitoring.FirstConfirmationWins` | dlc-manager/src/chain_monitor.rs:228-251 | the first confirmation of what is watched is recorded, and a later one does not displace it |
| `ChainMonitoring.KnownAfterWatching` | dlc-manager/src/chain_monitor.rs:153-187 | who offered the last settlement is known exactly by a revoked buffer transaction of the channel, the one watched last or another |
| `ChainMonitoring.RemovedIsExact` | dlc-manager/src/chain_monitor.rs:131-134 | one transaction is no longer watched and all else still is |
| `ChainMonitoring.CleanupIsExact` | dlc-manager/src/chain_monitor.rs:121-129 | what the clean-up leaves is exactly what belongs to other channels |
| `ChannelParty.ActOk` | dlc-manager/src/channel_updater.rs:818-2284 | an own action keeps the channel in order and reveals nothing, exactly unless it offers a collaborative close outside of Established and Settled |
| `ChannelParty.ReceiveOk` | dlc-manager/src/channel_updater.rs:1064-2188 | whatever message arrives, the channel stays in order and a secret is revealed only for the current index and with a checked signature of a replacement in hand, exactly unless the message accepts a renewal that the peer itself offered, for a point other than the own next one |
| `ChannelParty.RejectTakenIff` | dlc-manager/src/channel_updater.rs:2469-2498 | a rejection is taken in exactly with an own offer open, which rolls it back, or with nothing to reject, which changes nothing |
| `ChannelParty.PeersOfferCarriedOn` | dlc-manager/src/channel_updater.rs:1745-2132 | once that message is accepted, another one makes the party send its current secret, safely exactly when the point of the peer's offer was the own next one |
| `ChannelRuns.InOrderIff` | dlc-manager/src/manager.rs:1597-2224 | over whole runs of one party with arbitrary actions and messages the invariant holds throughout exactly when neither of these two steps is taken |
| `ChannelRuns.PlayOk` | dlc-manager/src/manager.rs:1597-2224 | the invariant after every such run |
| `ChannelRuns.RevocationIsSafe` | dlc-manager/src/channel_updater.rs:1126-2132 | in such runs secrets are revealed only against a replacement that the own key completes, and exactly those from the frontier up have been revealed |
| `ChannelRuns.PeersOfferRevealsTooEarly` | dlc-manager/src/channel_updater.rs:1745-1867 | the failing run: three messages of the peer make a party in a new channel send its current secret with no replacement for its own next point in hand |
| `ChannelRuns.ForceCloseWorks` | dlc-manager/src/manager.rs:2663-2828 | in such runs closing by force succeeds with at most one roll back and publishes a transaction that was never given up, with a signature for the current own point, whose secret is out only in SettledConfirmed |
| `ChannelPenalty.PunishIff` | dlc-manager/src/manager.rs:2321-2453 | with the secret in the store the penalty for a given-up transaction spends its output exactly when the recorded role fits: for a buffer transaction when it is the own role, for a settle transaction when the output it points to is the peer's, outputs below the dust limit left out |
| `ChannelPenalty.PastIsPunishable` | dlc-manager/src/manager.rs:2321-2453 | in such runs every given-up transaction is watched as revoked at its index with the own signature of it; publishing it is punished exactly when the role fits, and the handler panics for the newest one in RenewFinalized |
| `ChannelPenalty.WhichRolesFit` | dlc-manager/src/manager.rs:1675-2128 | which roles fit, by how each transaction was given up: replaced by a settlement, the first one and those the party offered; replaced by a renewal, those the peer offered; a settle transaction, when its first output is the peer's |
| `ChannelPenalty.OwnOfferUnpunishable` | dlc-manager/src/manager.rs:2017-2128 | the failing run: after one renewal the party that offered the channel cannot punish its first buffer transaction |
| `ChannelRuns.WatchListIsRight` | dlc-manager/src/manager.rs:1722-2116 | in such runs the current transaction is watched for what it is, and exactly one was given up per index |
| `ChannelWatch.SignedAreWatched` | dlc-manager/src/manager.rs:2017-2128 | in such runs the transactions signed for the peer are those given up, the current one and the pending one, and all of them are watched, except the new buffer transaction in RenewConfirmed |
| `ChannelRuns.CollateralIsConserved` | dlc-manager/src/channel_updater.rs:884-1109 | collateral never changes, the payouts of a settlement or a close always add up to it, and the transaction pays each party its own |
| `ChannelContracts.ContractsAreSigned` | dlc-manager/src/channel_updater.rs:1745-1995 | whatever a party does and gets, in order or not, it relies on no buffer transaction but those it began with and those whose contract the peer has sent its signatures for |
| `ChannelContracts.BroadcastContractIsSigned` | dlc-manager/src/manager.rs:2663-2828 | so the contract below a buffer transaction that it broadcasts is one the peer has signed, or the channel began with |
| `ChannelContracts.ContractsAreClosed` | dlc-manager/src/manager.rs:1675-2095 | in such runs the contracts that a party closes are those of the buffer transactions it gives up: each once, none left out, in the same order |
| `ChannelRuns.CloseOfferKeepsFallback` | dlc-manager/src/channel_updater.rs:2228-2272 | after an own close offer closing by force panics exactly when the offer was made outside of Established, Settled and RenewFinalized |
| `ChannelPair.PlayPairOk` | dlc-manager/src/channel_updater.rs:936-2188 | the invariant of two honest parties over every run with settlements, renewals, rejections and crossing offers |
| `ChannelPair.PartiesAgree` | dlc-manager/src/channel_updater.rs:936-2188 | indexes differ by at most one; when both are Established or Settled, index, points, transaction, payouts and signatures agree |
| `ChannelPair.NoHonestCheckFails` | dlc-manager/src/channel_updater.rs:936-2188 | no check of a signature or secret ever fails; refused are only a settlement offer of more than there is, an offer at the wrong time, and the acceptance of a renewal offered for more than there is |
| `ChannelPair.SecretStoresAreExact` | dlc-manager/src/channel_updater.rs:1265-2176 | each store holds exactly the peer's secrets for the indexes above the current one, each the preimage of the peer's point there |
| `ChannelPair.ProfitsSumToZero` | dlc-manager/src/manager.rs:2860-2890 | the closed contracts of the two sides pair up, and the recorded results sum to zero |
| `ChannelPair.SettlementCompletes` | dlc-manager/src/channel_updater.rs:818-1386 | a settlement that is offered and accepted is carried through: each party is paid what was agreed, and records that less its collateral as its result, and has nothing left to roll back to |
| `ChannelPair.RenewalCompletes` | dlc-manager/src/channel_updater.rs:1407-2188 | a renewal that is offered and accepted is carried through with the contract agreed on, and if it replaces one each party records its payout less its collateral; a state to roll back to is left with the accepting party alone |
| `ChannelPair.RejectionCompletes` | dlc-manager/src/channel_updater.rs:1390-2212 | an offer that is rejected leaves both parties as they were before it |
| `ChannelPair.CrossingOffersCancel` | dlc-manager/src/manager.rs:1597-1830 | offers of the same kind that cross reject each other, and both parties are as they were |
| `ChannelPair.RenewalFits` | dlc-manager/src/channel_updater.rs:1407-1508 | a renewal can be offered exactly for the whole of the channel, or after a settlement with each party putting in what the settle transaction pays it |
| `ChannelPair.CollaborativeCloseSumsToZero` | dlc-manager/src/manager.rs:1195-1230 | an accepted collaborative close pays the accepting party the offered payout and the other the rest, each records what it is paid less its collateral, nobody can accept an own offer, and the offer is refused exactly when a state to roll back to is left over |
| `SubChannels.PerPartyFee` | dlc-manager/src/sub_channel_manager.rs:4204-4211 | the halves sum to the fee and differ by at most one, in the offering party's disfavour |
| `SubChannels.GlueValue` | dlc-manager/src/sub_channel_manager.rs:613-637 | what is left of the Lightning channel above the split is what the two parties keep in it |
| `SubChannelRecovery.ReconnectConverges` | dlc-manager/src/sub_channel_manager.rs:3201-3618 | after losing all messages at any point, and however often the planned actions are processed before the Lightning channel is usable, the two are in step again on unchanged terms and balances, exactly unless a revocation with a close offer behind it, or the rejection of a sub channel, was lost |
| `SubChannelActions.WaitingIsHarmless` | dlc-manager/src/sub_channel_manager.rs:2772-2896 | processing the actions while the channel is not usable and then while it is comes to the same, with the same messages in total, as processing them once |
| `SubChannelActions.RoundsComeToOne` | dlc-manager/src/sub_channel_manager.rs:2772-2896 | the same for any number of rounds |
| `SubChannelActions.NothingDropped` | dlc-manager/src/sub_channel_manager.rs:2772-2896 | each action is kept, or has sent its message, or has marked the sub channel as signed |
| `SubChannelRecovery.AnyReportIsHandled` | dlc-manager/src/sub_channel_manager.rs:3201-3618 | whatever state a peer reports, the party goes on with the same terms and balances and a Lightning channel that fits its state; it panics exactly without a split seed when it needs one |
| `SubChannelRuns.RevokeCanBeLost` | dlc-manager/src/sub_channel_manager.rs:3415-3515 | a run in which the former is |
| `SubChannelRecovery.LostRevokeStrands` | dlc-manager/src/sub_channel_manager.rs:3415-3503 | the accepting party then goes back to accepting while the other waits for the closing |
| `SubChannelRecovery.StrandedForGood` | dlc-manager/src/sub_channel_manager.rs:3201-3618 | and no delivery, choice or reconnection changes the state of either any more |
| `SubChannelRecovery.LostRejectPutsOutOfStep` | dlc-manager/src/sub_channel_manager.rs:3220-3297 | after a lost rejection of a sub channel the offer comes again |
| `SubChannelRecovery.OutOfStepOffer` | dlc-manager/src/sub_channel_manager.rs:1590-1602 | and is taken in at the next index, or refused |
| `SubChannelRuns.RunsStayInStep` | dlc-manager/src/sub_channel_manager.rs:2772-3618 | any number of sub channels with any number of disconnects keeps the two in step |
| `SubChannelRuns.DeliveryProgresses` | dlc-manager/src/sub_channel_manager.rs:1713-2768 | no message is refused but the acceptance of a close offer, exactly when the sub channel was opened at another fee than its first; each other one brings the negotiation forward or ends it with a rejection, and without one it is for the other party to decide or the closing is stuck for that reason |
| `SubChannelRuns.ResentSecretIsAwaited` | dlc-manager/src/sub_channel_manager.rs:3620-3651 | the split secret sent again is the one the peer waits for, and is accepted |
| `SubChannelPair.SplitLnsAgree` | dlc-manager/src/sub_channel_manager.rs:4146-4200 | both sides compute the same Lightning channel above the split |
| `SubChannelPair.ClosedLnsAgree` | dlc-manager/src/sub_channel_manager.rs:1441-1456 | the Lightning channels that the two compute for the closing, each from the fund value and its own balance, are the same exactly if the stored fee is that of the opening |
| `SubChannelPair.CloseAcceptTakenIff` | dlc-manager/src/sub_channel_manager.rs:2439-2460 | so the acceptance of a close offer passes the signature check exactly then |
| `SubChannelRuns.BalancesSettle` | dlc-manager/src/sub_channel_manager.rs:1303-2768 | through any run from two parties without a sub channel: together they are always left with what there was, each with what it had and what the closings brought it, which adds up to nothing |
| `SubChannelRuns.BalancesAtRest` | dlc-manager/src/sub_channel_manager.rs:1303-2768 | the same for the Lightning channel itself once no sub channel is left |
| `SubChannelRuns.OpeningTakes` | dlc-manager/src/sub_channel_manager.rs:324-2338 | a sub channel that both can afford and that is offered and accepted is opened on those terms, and takes from each party its collateral and its half of the fee |
| `SubChannelRuns.OfferTakenIff` | dlc-manager/src/sub_channel_manager.rs:1574-1711 | an offer of any peer is taken in exactly by a party without a sub channel, or with a closed or rejected one, if both can afford it |
| `SubChannelRuns.NothingUnchecked` | dlc-manager/src/sub_channel_manager.rs:1713-2768 | a message of any peer is taken in only with a commitment signature that fits the Lightning channel that follows, and a closing only with the secret of the point given and, without a reconnection in between, the commitment secret |
| `SubChannelRuns.OddFee` | dlc-manager/src/sub_channel_manager.rs:1441-2443 | a closing brings a party its agreed share for its collateral, off by the odd satoshi exactly when the fee is odd and the other party offers the closing |
| `SubChannelRuns.OtherFeeNeverCloses` | dlc-manager/src/sub_channel_manager.rs:2416-2521 | a sub channel opened at another fee than its first is never closed off chain again, in any run |
| `SubChannelRuns.ReofferedAtOtherFee` | dlc-manager/src/sub_channel_manager.rs:334-360 | a run that opens one |
| `SubChannelRuns.FeeIsThatOfFirstOffer` | dlc-manager/src/sub_channel_manager.rs:324-483 | a sub channel offered again keeps the fee of its first offer |
| `SubChannelRuns.OfferAfterRejecting` | dlc-manager/src/sub_channel_manager.rs:370-383 | a party that has rejected an offer panics when it makes one itself that both can afford, exactly if it has no split seed |
| `SubChannelRuns.FirstOfferHasNoSeed` | dlc-manager/src/sub_channel_manager.rs:1636-1640 | which is so for a first offer |
| `SubChannelRuns.CanOffer` | dlc-manager/src/sub_channel_manager.rs:324-483 | a party without a sub channel, or with a closed one, can offer one that both can afford, at the next index |
| `SubChannelRuns.ClosesFor` | dlc-manager/src/sub_channel_manager.rs:1329-1353 | a close offer is possible for any balance up to the stake, or after a settlement inside for what the counter party settled for only |
| `SubChannelRuns.ClosingPays` | dlc-manager/src/sub_channel_manager.rs:1303-2768 | a closing that is offered and accepted leaves both with the Lightning channel alone, in which each has its agreed share for its collateral |
| `SubChannelRuns.SettledClosesFor` | dlc-manager/src/sub_channel_manager.rs:1329-1353 | after a settlement inside for a payout of p the party can offer to close for one balance only |
| `SubChannelRuns.SettledCloseHeld` | dlc-manager/src/sub_channel_manager.rs:2362-2391 | and the other party holds that offer with p on both sides |
| `SubChannelRuns.SettledClosingPays` | dlc-manager/src/sub_channel_manager.rs:1303-2768 | and closing pays p |
| `SignedChannels.SignedChannel.SettleChannelOffer` | dlc-manager/src/channel_updater.rs:818-869 | offers a settlement: keeps the state to roll back to and promises the point for the next index |
| `SignedChannels.SignedChannel.OnSettleOffer` | dlc-manager/src/channel_updater.rs:873-907 | takes in a settlement offer of at most the total collateral |
| `SignedChannels.SignedChannel.GetSettleTxAndAdaptorSig` | dlc-manager/src/channel_updater.rs:2390-2466 | builds the settle transaction by role, checks the peer's signature of it and signs it under the peer's publish key |
| `SignedChannels.SignedChannel.SettleChannelAccept` | dlc-manager/src/channel_updater.rs:937-1029 | accepts a settlement and starts watching its transaction |
| `SignedChannels.SignedChannel.SettleChannelConfirm` | dlc-manager/src/channel_updater.rs:1064-1181 | checks the signature it needs, then reveals the secret of the current index |
| `SignedChannels.SignedChannel.SettleChannelFinalize` | dlc-manager/src/channel_updater.rs:1197-1316 | checks signature and secret, stores the secret, moves points and index and reveals the own secret |
| `SignedChannels.SignedChannel.SettleChannelOnFinalize` | dlc-manager/src/channel_updater.rs:1322-1386 | checks and stores the secret, moves points and index |
| `SignedChannels.SignedChannel.RejectSettleOffer` | dlc-manager/src/channel_updater.rs:1390-1403 | rolls back a received settlement offer |
| `SignedChannels.SignedChannel.RenewOffer` | dlc-manager/src/channel_updater.rs:1407-1508 | offers a renewal that fits what the parties hold |
| `SignedChannels.SignedChannel.OnRenewOffer` | dlc-manager/src/channel_updater.rs:1513-1571 | takes in a renewal offer |
| `SignedChannels.SignedChannel.AcceptChannelRenewal` | dlc-manager/src/channel_updater.rs:1601-1712 | accepts a renewal with the point for the next index |
| `SignedChannels.SignedChannel.VerifyRenewAcceptAndConfirm` | dlc-manager/src/channel_updater.rs:1745-1867 | checks the peer's contract signatures and signs the buffer transaction |
| `SignedChannels.SignedChannel.VerifyRenewConfirmAndFinalize` | dlc-manager/src/channel_updater.rs:1901-2034 | checks the peer's signatures, moves the points, not the index, and reveals the secret |
| `SignedChannels.SignedChannel.RenewChannelOnFinalize` | dlc-manager/src/channel_updater.rs:2037-2135 | checks signature and secret, stores the secret, moves points and index and reveals the own secret |
| `SignedChannels.SignedChannel.RenewChannelOnRevoke` | dlc-manager/src/channel_updater.rs:2138-2188 | checks and stores the secret and moves the index; the state to roll back to stays |
| `SignedChannels.SignedChannel.RejectRenewOffer` | dlc-manager/src/channel_updater.rs:2193-2212 | rolls back a received renewal offer, never an own one |
| `SignedChannels.SignedChannel.OnReject` | dlc-manager/src/channel_updater.rs:2469-2497 | rolls back an own offer |
| `SignedChannels.SignedChannel.OfferCollaborativeClose` | dlc-manager/src/channel_updater.rs:2216-2284 | offers a collaborative close in any state |
| `SignedChannels.SignedChannel.OnCollaborativeCloseOffer` | dlc-manager/src/channel_updater.rs:2288-2338 | takes in such an offer outside of states with a roll back |
| `ChannelManager.Manager.OnSettleOffer` | dlc-manager/src/manager.rs:1597-1619 | a settlement offer crossing an own one is rejected |
| `ChannelManager.Manager.OnSettleAccept` | dlc-manager/src/manager.rs:1621-1673 | the confirmation is stored and sent; a failing handler leaves channel, watches and records alone |
| `ChannelManager.Manager.OnSettleConfirm` | dlc-manager/src/manager.rs:1675-1747 | the former buffer transaction is watched as revoked at its index and its contract closed; if the store does not have the contract the handler fails with only that watch entry made |
| `ChannelManager.Manager.OnSettleFinalize` | dlc-manager/src/manager.rs:1749-1801 | the same on the other side |
| `ChannelManager.Manager.OnRenewOffer` | dlc-manager/src/manager.rs:1803-1830 | a renewal offer crossing an own one is rejected |
| `ChannelManager.Manager.OnRenewAccept` | dlc-manager/src/manager.rs:1832-1884 | the confirmation is stored and sent; a failing handler leaves channel, watches and records alone |
| `ChannelManager.Manager.OnRenewConfirm` | dlc-manager/src/manager.rs:1886-2015 | the former transaction is watched as revoked, the new one as buffer, and a former contract is closed; if the store does not have it nothing is changed |
| `ChannelManager.Manager.OnRenewFinalize` | dlc-manager/src/manager.rs:2017-2128 | the same on the other side |
| `ChannelManager.Manager.OnRenewRevoke` | dlc-manager/src/manager.rs:2130-2146 | the index moves once the secret is stored |
| `ChannelManager.Manager.OnCollaborativeCloseOffer` | dlc-manager/src/manager.rs:2148-2167 | the offer is stored; a failing handler leaves channel, watches and records alone |
| `ChannelManager.Manager.OnReject` | dlc-manager/src/manager.rs:2169-2224 | an own offer is rolled back; a failing handler leaves channel, watches and records alone |
| `ChannelManager.Manager.OfferSettle` | dlc-manager/src/manager.rs:947-974 | a settlement offer is stored and sent |
| `ChannelManager.Manager.AcceptSettle` | dlc-manager/src/manager.rs:976-1014 | an accepted settlement is stored and sent |
| `ChannelManager.Manager.RejectSettle` | dlc-manager/src/manager.rs:1138-1153 | a rejected settlement is rolled back |
| `ChannelManager.Manager.OfferRenew` | dlc-manager/src/manager.rs:1021-1059 | a renewal offer is stored and sent |
| `ChannelManager.Manager.AcceptRenew` | dlc-manager/src/manager.rs:1064-1099 | an accepted renewal is stored and sent |
| `ChannelManager.Manager.RejectRenew` | dlc-manager/src/manager.rs:1104-1133 | a rejected renewal is rolled back |
| `ChannelManager.Manager.OfferClose` | dlc-manager/src/manager.rs:1159-1191 | the close transaction is watched from the offer on |
| `ChannelManager.Manager.ForceCloseChannel` | dlc-manager/src/manager.rs:2663-2828 | broadcasts the transaction of the current state or of the one rolled back to, and stops watching it |
| `SubChannelManagement.SubChannelManager.OfferSubChannel` | dlc-manager/src/sub_channel_manager.rs:324-483 | offers a new sub channel, or a closed one at the next index |
| `SubChannelManagement.SubChannelManager.OnSubChannelOffer` | dlc-manager/src/sub_channel_manager.rs:1574-1711 | takes in an offer that both can afford |
| `SubChannelManagement.SubChannelManager.AcceptSubChannel` | dlc-manager/src/sub_channel_manager.rs:494-760 | splits the Lightning channel and keeps what it was |
| `SubChannelManagement.SubChannelManager.OnSubChannelAccept` | dlc-manager/src/sub_channel_manager.rs:1713-2002 | splits it on the other side and checks that both see the same |
| `SubChannelManagement.SubChannelManager.OnSubChannelConfirm` | dlc-manager/src/sub_channel_manager.rs:2004-2172 | the accepting party is final |
| `SubChannelManagement.SubChannelManager.OnSubChannelFinalize` | dlc-manager/src/sub_channel_manager.rs:2174-2290 | the offering party is signed and revokes |
| `SubChannelManagement.SubChannelManager.OnSubChannelRevoke` | dlc-manager/src/sub_channel_manager.rs:2292-2338 | the accepting party is signed |
| `SubChannelManagement.SubChannelManager.RejectSubChannelOffer` | dlc-manager/src/sub_channel_manager.rs:1488-1505 | an offer is rejected |
| `SubChannelManagement.SubChannelManager.RejectSubChannelCloseOffer` | dlc-manager/src/sub_channel_manager.rs:1508-1524 | a close offer is rejected |
| `SubChannelManagement.SubChannelManager.OnSubChannelReject` | dlc-manager/src/sub_channel_manager.rs:3653-3693 | an offer ends rejected, a close offer back in the signed state |
| `SubChannelManagement.SubChannelManager.OfferSubChannelClose` | dlc-manager/src/sub_channel_manager.rs:1303-1380 | offers balances that share out the collateral |
| `SubChannelManagement.SubChannelManager.OnSubChannelCloseOffer` | dlc-manager/src/sub_channel_manager.rs:2340-2414 | takes them in |
| `SubChannelManagement.SubChannelManager.AcceptSubChannelCloseOffer` | dlc-manager/src/sub_channel_manager.rs:1383-1485 | merges the Lightning channel with the accepting party's half of the fee |
| `SubChannelManagement.SubChannelManager.OnSubChannelCloseAccept` | dlc-manager/src/sub_channel_manager.rs:2416-2521 | merges it on the other side and reveals the split secret |
| `SubChannelManagement.SubChannelManager.OnSubChannelCloseConfirm` | dlc-manager/src/sub_channel_manager.rs:2523-2653 | checks and stores the split secret and answers with the own one |
| `SubChannelManagement.SubChannelManager.OnSubChannelCloseFinalize` | dlc-manager/src/sub_channel_manager.rs:2655-2768 | checks and stores the split secret; the commitment secret is asked for unless it comes through the reconnection |
| `SubChannelManagement.SubChannelManager.GetReconnectCloseFinalize` | dlc-manager/src/sub_channel_manager.rs:3620-3651 | the split secret of the closed index, also after a new offer |
| `SubChannelManagement.SubChannelManager.OnChannelReestablish` | dlc-manager/src/sub_channel_manager.rs:3201-3618 | rolls back, plans actions or neither, by own and reported state |
| `SubChannelManagement.SubChannelManager.ProcessActions` | dlc-manager/src/sub_channel_manager.rs:2772-2896 | performs the planned actions in turn and keeps those that have to wait |

## Left out

- ChannelUpdates: contracts are carried in the state that names them, and the contract store, but for the look-up of the contract that is closed, oracle announcements, CET and refund signatures, time-outs, fees, lock times, reference ids and temporary ids are not modelled; the signatures below a buffer transaction are one term.
- ChannelHandlers.Punish: the penalty for a revoked split transaction is not modelled; a penalty with the wrong script counts as one that fails.
- ChannelHandlers: the handlers for on-chain transactions other than revoked ones, the claim and CET transactions after a forced close, and reorganisations are not modelled.
- ChannelPair.PlayPairOk: collaborative closes are not part of the runs of two parties; a settlement offer that crosses a renewal offer leaves both waiting, so completion is claimed for quiet states only.
- ChannelManager.Manager.OnCollaborativeCloseOffer: the signature of the close transaction is not modelled.
- SubChannels: adaptor and glue signatures, HTLCs, commitment numbers and the Lightning internals are not modelled; a commitment signature stands for the balances it covers, and a balance is outbound capacity plus reserve.
- SubChannels.Perform: giving up an action because the Lightning channel is unknown is not modelled.
- SubChannels.Reestablish: offers, or close offers, from both sides at once are not part of the runs; what follows a lost rejection depends on the stores of channels and contracts, which are not modelled.
- SubChannelRuns.Rearranged: the DLC channel inside a sub channel is settled or renewed in one step of both parties; close offers in the middle of that, which the code refuses, are not modelled.
- PayoutCurve.Evaluate: `f64` is modelled by `real`, so rounding errors, subnormal numbers and overflow are not modelled; the square root of a hyperbola is an arbitrary function.
- PayoutCurve.ComputeRangePayouts: the outcome `u64::MAX` as a last outcome, the modulus 0, and the second test against the total collateral, which the first one makes superfluous, are not modelled.
- DigitDecomposition.DecomposeValue: the division is that of integers; the `f64` division of the code agrees with it below 2^53.
- DigitDecomposition.TakePrefix: the vectors are passed in and out as values instead of being changed in place, as they are in RemoveTail and GroupByIgnoringDigits.
- CombinationIteration.CombinationIterator.Next: a selection of 0 elements and calls after None are not modelled.
- TrieGeneration.MultiOracleTrie.Insert: the digit trie is a map from paths to values; its nodes, several oracles and oracles with different numbers of digits are not modelled.
- Wallet, blockchain, storage, message serialization, segmentation, the sample application and the enumerated contracts are not modelled.
