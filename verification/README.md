# The signer's state machines in Dafny

A model of the three state machines at the heart of `vls-core`, the core of the
Validating Lightning Signer, with proofs of what they keep over every run:

- the **chain monitor**, which parses streamed blocks into changes, commits them when a
  block is added, undoes them when it is reorganised away, and decides when a channel may
  be forgotten;
- the **node's payment ledger** with the commitments its channels report to it, its pruning,
  and the lock protocol of its operations;
- the **channel's** funding eras during splices, its holder commitment numbers, and the
  HTLC transactions of a recovery close.

Code that updates fields in place is modelled by classes (`LiveClosing`, `LiveState`,
`BlockDecoder`, `PushListener`, `ChainMonitor`, `LiveLedger`, `LivePayments`, `LiveNode`,
`LiveChannel`, `LiveEnforcement`) whose methods are proved equal to functions on values; the theorems are
about those functions. A panic is `None`, or `ok == false` in a method.

## Files

| files | contents |
|---|---|
| `Options`, `Chain`, `Sums` | optional values, transactions and the confirmed past, sums over maps |
| `UndoStack`, `Fleet` | last-in-first-out runs of any system whose removals fail or restore, and of many such systems that share one stack |
| `Closing`, `ClosingTruth` | the outputs of a unilateral close, and when their flags agree with the chain |
| `MonitorState`, `MonitorDecode`, `MonitorBlocks` | changes and their replay, the incremental parser against a declarative reading of a transaction, blocks added whole or streamed |
| `MonitorTruth`, `MonitorReplay`, `MonitorReparse`, `MonitorReorg`, `MonitorUnseen`, `MonitorRuns` | the monitor's state against the chain, undo of one block, the second parse, blocks below a set-up, whole runs, pruning |
| `MonitorWatch`, `MonitorWatchReorg`, `MonitorExamples` | the tracker's watch set, forward and back, and concrete failures |
| `MonitorObjects`, `MonitorListener` | the monitor and its parser updated in place |
| `Ledger`, `ChannelPayments` | the payment ledger, and what the commitments of a channel tell it |
| `LedgerRuns`, `LedgerBounds`, `LedgerMirror`, `LedgerBalances`, `LedgerExamples` | runs of a ledger with its channels: conservation and panics, invoices and expiries, the ledger against the commitments, what protects the channels' worth, concrete failures |
| `LedgerObjects`, `ChannelPaymentObjects` | the ledger and the channel's part in it updated in place, with the source's loops |
| `Locks`, `NodeLocks`, `NodeOperations` | interleaved threads over mutexes, the shapes of lock programs, and the node's operations written out |
| `Pruning`, `NodeRuns` | channels pruned at a heartbeat, and whole runs of a node with many channels |
| `Eras`, `Revocation`, `RevocationExamples`, `RevocationObjects`, `Recovery` | funding eras, commitment numbers and runs on which their properties fail, recovery of HTLCs |

## Assumptions

- The chain is well formed: txids are unique, inside a block a transaction comes after the
  ones it spends, and each outpoint is spent once. The coinbase's null outpoint is exempt.
- The provider that recognises commitment transactions is fixed while a block is added and
  removed, names distinct outputs of the transaction, and never names ours as an HTLC.
- A close has at most 600 outputs and a funding transaction has its funding output, which
  are the decoder's own assertions (`WithinLimits`).
- One funding transaction is tracked; replacing the funding outpoint is left out. Its inputs
  are registered when the node signs it (`vls-core/src/node.rs:2513-2530`); in the runs of a
  node a channel is set up, and its funding signed, before any of that is on the chain.
- Policy is strict: a policy error refuses. The validator's answers that depend on code
  outside the model (signatures, velocity) are parameters of the events. So is the balance
  change of a commitment, any value it may take in a splice; for a channel with one funding
  it is worked out (`LedgerBalances`).
- For `ClosesWithStored` only: a counterparty signature signs one commitment.

## What turned out false

Each of these has a lemma with a concrete input and a lemma with the exact condition.

- Removing a block undoes adding it. The changes are replayed oldest first, so removal
  panics when a change in the block builds on another one (`RemovingSweptClosePanics`).
  Exact condition: `ReorgUndo`, and over runs `MonitorLifoRun`.
- Removing a block gives the tracker its watches back. The two HTLC changes report their
  watches the other way round (`RemovingHtlcSpendLosesWatch`). Exact condition: `ReorgWatch`.
- A monitor can be taken below the block its channel was set up at. It panics on the block
  that holds its funding transaction (`RemovingUnseenFundingPanics`). Exact condition:
  `UnseenBlock`; a channel set up before its funding confirmed is safe (`Rewinds`).
- The ledger never panics on accepted updates. It does when the incoming side of an
  uninvoiced payment is withdrawn before its preimage arrives (`AcceptedRunPanics`), and when
  two channels' holder commitments, each accepted within the register, are both revoked into:
  a revocation applies what was validated earlier and checks nothing again
  (`RevokedTogetherPanics`). Exact condition: `PanicsExactly`; in terms of what all channels
  are worth, over whole runs, `RevocationPanics`.
- An accepted payment stays within its invoice. Two channels' holder commitments that each pay
  the invoice in full are both accepted and both revoked into (`RevokedTogetherOverpays`).
  Exact condition: `InvoicedIsBounded`; what validation does buy is `UndisturbedIsWithin`.
- A payment whose expiries are too close does not move any more. A commitment kept from before
  can still be revoked into (`FrozenStillMoves`). Exact condition: `BadExpiryFreezes`.
- The ledger has in flight what the channels' commitments have. The baselines a lock installs
  name no HTLC, so the ledger keeps one that no commitment has (`LockLeavesStake`). Exact
  condition: `LedgerMirrorsCommitments`.
- The lock order prevents deadlock. It does for the four ranked mutexes, but the monitor's
  own mutex is held over a call that locks the channel slot, and read under that slot
  elsewhere (`SigningAndBlockDeadlock`). Exact condition: `OperationsComplete`.
- Locking a funding closes the splice window. Not when that outpoint was locked before and
  spliced back to (`RelockingLeavesWindowOpen`). Exact condition: `LockClosesWindow`.
- An unset shutdown script stays unset in a splice, as the comment at
  `vls-core/src/channel.rs:2295-2298` says; the code lets it be set (`UnsetScriptCanBeSet`).
  Exact condition: `ScriptStaysUnset`; what does survive is `NegotiatedTermsStay`.
- Once a close is signed, that commitment is never revoked. It can be, when the current
  commitment is closed while its successor is pending (`ClosedThenRevoked`). Exact condition:
  `ClosedStaysUnrevoked`.
- Recovery always has a commitment to sign. Right after a splice it panics
  (`RecoveryAfterSplicePanics`). Exact condition: `RecoveryOutcome`.
- A close is signed with signatures that were validated for its number and content. After a
  splice locks it may pair a baseline with older signatures (`LockedSpliceMixesPair`), and
  after a re-activation it may close number 0 with what was validated for number 1
  (`ReactivationClosesOtherNumber`). Exact condition: `ClosesWithValidated`.

## Model

| member | source | states |
|---|---|---|
| `ClosingTruth.AllSpentMeansSpent` | vls-core/src/monitor.rs:103-109 | with flags that agree with the chain, the all-spent test holds exactly when every tracked output is spent |
| `ClosingTruth.ExactOur` | vls-core/src/monitor.rs:54-131 | marking our output keeps the flags in agreement with the chain once its outpoint is spent |
| `ClosingTruth.ExactHtlc` | vls-core/src/monitor.rs:54-131 | marking an HTLC output and adding its second-level output keeps flags and chain in agreement |
| `ClosingTruth.ExactSecond` | vls-core/src/monitor.rs:54-131 | marking a second-level output keeps flags and chain in agreement |
| `MonitorDecode.OnInputStep` | vls-core/src/monitor.rs:310-373 | reading inputs one by one collects exactly the changes, HTLC spends and lone funding spend of the inputs read so far |
| `MonitorDecode.ListenTx` | vls-core/src/monitor.rs:298-497 | the event-by-event parser computes the declarative reading of a whole transaction, and panics exactly where that is undefined |
| `MonitorDecode.ListenBlock` | vls-core/src/monitor.rs:268-503 | the same for the event stream of a block |
| `MonitorBlocks.PushTransactionsChanges` | vls-core/src/monitor.rs:1059-1087 | simulating a streamed block over a compact one finds exactly the block's changes |
| `MonitorBlocks.AddBlockIsDecodeThenCommit` | vls-core/src/monitor.rs:1097-1107 | adding a block commits the changes decoded against the state before it |
| `MonitorBlocks.CommitAgreesWithShadow` | vls-core/src/monitor.rs:258-263 | every change the parser emits can be committed without a panic, and the committed state equals the parser's shadow on funding outpoint and close |
| `MonitorBlocks.StreamedEqualsCompact` | vls-core/src/monitor.rs:1109-1118 | however the event stream is cut into pushes, the streamed add ends in the state, and reports the watches, of the compact add |
| `MonitorBlocks.StreamedEqualsCompactRemove` | vls-core/src/monitor.rs:1132-1144 | the same for removal |
| `MonitorBlocks.PartialStreamIgnored` | vls-core/src/monitor.rs:1146-1166 | a monitor that missed the block's start ignores the rest of the stream and its end |
| `MonitorBlocks.CloseClassification` | vls-core/src/monitor.rs:322-333 | the parser emits a close exactly for a single-input spend of the confirmed funding by a transaction that is not itself a tracked funding, and it is the provider's reading of that transaction |
| `MonitorBlocks.TxChangesClose` | vls-core/src/monitor.rs:400-483 | the close is what the provider makes of the whole transaction: mutual, or unilateral with the outputs it names |
| `MonitorTruth.TxStep` | vls-core/src/monitor.rs:310-497 | reading one valid transaction keeps the state true to the chain: confirmation, double spend and close recorded exactly when they happened, with their heights, and exact spent flags |
| `MonitorTruth.BlockStep` | vls-core/src/monitor.rs:1059-1087 | the same over a block; every change applies to a state in which it is new |
| `MonitorReplay.UndoExact` | vls-core/src/monitor.rs:642-694 | undoing a block's changes oldest first panics exactly when one builds on an earlier one, and gives the state back exactly when none does and a confirmation found no double spend recorded |
| `MonitorReplay.Commute` | vls-core/src/monitor.rs:778-844 | undoing an applied change commutes with a later change that does not build on it |
| `MonitorReplay.DependentPanics` | vls-core/src/monitor.rs:778-844 | undoing oldest first panics when a later change of the block builds on an earlier one |
| `MonitorReparse.SecondDecoding` | vls-core/src/monitor.rs:1120-1130 | parsing the block again, against the state after it, finds the same changes |
| `MonitorReorg.InitialInv` | vls-core/src/monitor.rs:859-879 | a new monitor satisfies the invariant |
| `MonitorReorg.AddKeepsInv` | vls-core/src/monitor.rs:583-640 | adding the next block never panics and keeps the invariant: state true to the chain, swept heights set exactly when the matching outputs are all spent |
| `MonitorReorg.NoConfirmationAfterDoubleSpend` | vls-core/src/monitor.rs:709-730 | a block never confirms a funding whose double spend is recorded, so undoing a confirmation loses nothing |
| `MonitorReorg.ReorgUndo` | vls-core/src/monitor.rs:642-694 | removing the block just added panics exactly when its changes build on each other, and otherwise gives the earlier state back, up to the seen-a-block flag |
| `MonitorRuns.MonitorSound` | vls-core/src/monitor.rs:583-694 | the monitor is a system whose legal additions succeed and whose removals fail or restore |
| `MonitorRuns.MonitorLifoRun` | vls-core/src/monitor.rs:583-844 | every run of next blocks added, last blocks removed and forgets panics exactly when it removes a block whose changes build on each other; otherwise the state is that of adding the remaining blocks alone, and the invariant holds |
| `UndoStack.LifoRun` | vls-core/src/monitor.rs:583-694 | for any such system, a run fails exactly when it removes what cannot be undone, and otherwise equals the additions that survive |
| `MonitorUnseen.UnseenBlock` | vls-core/src/monitor.rs:642-694 | a monitor whose funding has not confirmed, made to undo a block it never added, panics exactly when the block holds its funding transaction, and otherwise only lowers its height |
| `MonitorUnseen.Rewinds` | vls-core/src/chain/tracker.rs:400-419 | such a monitor that is true to the chain is what adding the last block makes of itself one block earlier, when it was true to the chain too |
| `MonitorExamples.RemovingUnseenFundingPanics` | vls-core/src/monitor.rs:778-791 | a monitor set up after its funding confirmed cannot undo that block |
| `MonitorRuns.ChainStateTrue` | vls-core/src/monitor.rs:938-954 | the depth subtractions never underflow and give the confirmations of the funding, of its lone spend and of a double spend; a depth is zero exactly when there is none |
| `MonitorRuns.DoneIsSafe` | vls-core/src/monitor.rs:511-581 | a monitor is done only if the node forgot the channel and a double spend, a mutual close, or the spend of every tracked output has at least 100 confirmations |
| `MonitorWatch.ForwardWatch` | vls-core/src/chain/tracker.rs:539-553 | after adding a block the tracker watches exactly the funding inputs and outpoint still of interest and the unspent tracked outputs |
| `MonitorWatch.WatchTx` | vls-core/src/monitor.rs:709-773 | the same for the changes of one transaction |
| `MonitorWatchReorg.ReorgWatch` | vls-core/src/chain/tracker.rs:400-419 | adding and removing an undoable block gives the watch set back if and only if the block has no HTLC change |
| `MonitorExamples.RemovingSweptClosePanics` | vls-core/src/monitor.rs:666-668 | a valid block with a close and its sweep can be added but not removed |
| `MonitorExamples.RemovingHtlcSpendLosesWatch` | vls-core/src/monitor.rs:831-837 | after removing an HTLC spend the tracker no longer watches the HTLC output |
| `MonitorObjects.LiveClosing.constructor` | vls-core/src/monitor.rs:54-131 | a new close starts with nothing spent |
| `MonitorObjects.LiveClosing.SetOurOutputSpent` | vls-core/src/monitor.rs:54-131 | the in-place update is the value update, and fails where the source panics |
| `MonitorObjects.LiveClosing.SetHtlcOutputSpent` | vls-core/src/monitor.rs:54-131 | the in-place update is the value update, and fails where the source panics |
| `MonitorObjects.LiveClosing.SetSecondLevelSpent` | vls-core/src/monitor.rs:54-131 | the first matching second-level output is updated, and it fails when there is none |
| `MonitorObjects.LiveClosing.RemoveSecondLevel` | vls-core/src/monitor.rs:54-131 | the filtered list is the list without the outpoint |
| `MonitorObjects.LiveClosing.IsAllSpent` | vls-core/src/monitor.rs:103-109 | the loops decide whether everything is spent |
| `MonitorObjects.LiveState.ApplyForwardChange` | vls-core/src/monitor.rs:709-773 | new state, adds and removes of applying one change |
| `MonitorObjects.LiveState.ApplyBackwardChange` | vls-core/src/monitor.rs:778-844 | new state, adds and removes of undoing one change |
| `MonitorObjects.LiveState.OnAddBlockEnd` | vls-core/src/monitor.rs:583-640 | committing a block's changes is the block function the theorems are about |
| `MonitorObjects.LiveState.OnRemoveBlockEnd` | vls-core/src/monitor.rs:642-694 | undoing a block's changes is the block function the theorems are about |
| `MonitorListener.BlockDecoder.OnTransactionInput` | vls-core/src/monitor.rs:310-373 | the decoder fields after one input |
| `MonitorListener.BlockDecoder.OnTransactionOutput` | vls-core/src/monitor.rs:375-391 | the decoder fields after one output |
| `MonitorListener.BlockDecoder.OnTransactionEnd` | vls-core/src/monitor.rs:393-497 | the decoder fields after a transaction's end |
| `MonitorListener.PushListener.Handle` | vls-core/src/monitor.rs:268-503 | one event of the stream, with the not-ready and block-start cases |
| `MonitorListener.PushListener.HandleBlock` | vls-core/src/monitor.rs:1059-1087 | pushing whole transactions through the listener decodes the block |
| `MonitorListener.ChainMonitor.OnAddBlock` | vls-core/src/monitor.rs:1097-1107 | state and watches after a compact block is added |
| `MonitorListener.ChainMonitor.OnRemoveBlock` | vls-core/src/monitor.rs:1120-1130 | state and watches after a compact block is removed |
| `MonitorListener.ChainMonitor.OnPush` | vls-core/src/monitor.rs:1146-1166 | the stored decode state and flag after a chunk of events |
| `MonitorListener.ChainMonitor.OnAddStreamedBlockEnd` | vls-core/src/monitor.rs:1109-1118 | state and watches at the end of a streamed block |
| `MonitorListener.ChainMonitor.OnRemoveStreamedBlockEnd` | vls-core/src/monitor.rs:1132-1144 | state and watches at the end of a streamed removal |
| `Ledger.PredictionIsEffect` | vls-core/src/node.rs:250-282 | the totals validation checks are the totals after the update, for every payment it names; every other payment and every invoice is untouched |
| `Ledger.AcceptedApplies` | vls-core/src/node.rs:599-618 | applying right after an accepted validation cannot panic and leaves every invoiced or new payment in balance |
| `LedgerRuns.ExcessConserved` | vls-core/src/node.rs:670-691 | over every run the excess register is its start plus the gains of applied commitments and settled incoming, minus their losses and settled outgoing; a holder commitment counts when it is revoked into |
| `LedgerRuns.EachSettledOnce` | vls-core/src/node.rs:737-806 | between heartbeats no payment is settled twice |
| `LedgerRuns.KnownIsNotSettled` | vls-core/src/node.rs:737-806 | over every run that does not prune the payment, a recorded preimage is never overwritten and the payment never settles again |
| `LedgerRuns.PanicsExactly` | vls-core/src/channel.rs:1358-1421 | a step panics exactly when the register would leave the 64-bit range: on the gain of an acceptable commitment, on the gain or loss of a kept one at its revocation, or on a settlement; heartbeats never do |
| `LedgerRuns.ReachableIndexed` | vls-core/src/node.rs:1853-1856 | from any restored ledger, every reachable ledger has a payment for each invoice |
| `LedgerRuns.StepKeepsIndex` | vls-core/src/node.rs:2995-3042 | every operation keeps a payment for each invoice |
| `LedgerExamples.AcceptedRunPanics` | vls-core/src/node.rs:737-806 | a payment forwarded, its incoming side withdrawn, both accepted, and its preimage panics |
| `LedgerExamples.RevokedTogetherPanics` | vls-core/src/channel.rs:1397-1421 | two holder commitments accepted in turn, the first revocation succeeds and the second panics |
| `LedgerExamples.DrainIsRegular` | vls-core/src/channel.rs:1388-1421 | that run, up to the panic, is one of the regular runs of `WorthAccounted`, with the balance changes its channels work out |
| `LedgerExamples.RevokedTogetherOverpays` | vls-core/src/channel.rs:1397-1421 | two holder commitments accepted in turn pay one invoice twice |
| `LedgerExamples.FrozenStillMoves` | vls-core/src/channel.rs:1397-1421 | a revocation moves a payment whose expiries are too close |
| `LedgerExamples.LockLeavesStake` | vls-core/src/channel.rs:2358-2391 | after a lock and a commitment without the HTLC the ledger still has it |
| `LedgerBounds.StepKeepsWithin` | vls-core/src/policy/simple_validator.rs:1756-1804 | an operation takes an invoiced payment beyond its amount plus routing fee exactly when it adds the invoice to a payment already beyond it, or revokes into a kept commitment whose totals, as predicted then, are beyond it |
| `LedgerBounds.InvoicedIsBounded` | vls-core/src/node.rs:495-621 | over every run, at every point, what goes out is at most what came in plus the invoice and the routing fee, if and only if no step is one of those two |
| `LedgerBounds.UndisturbedIsWithin` | vls-core/src/channel.rs:1306-1341 | a commitment accepted and kept for an invoiced payment does not overshoot it at its revocation, after any run in which its channel does nothing and no other channel moves that payment |
| `LedgerBounds.ExpiriesCovered` | vls-core/src/node.rs:273-293 | whenever a commitment is applied, at its validation or at a revocation, and however the run goes on, the expiry bounds its payments record cover its HTLCs until the payment is pruned |
| `LedgerBounds.RunTightens` | vls-core/src/node.rs:273-293 | over every run that does not prune it, a payment's expiry bounds only tighten |
| `LedgerBounds.FrozenRefuses` | vls-core/src/policy/simple_validator.rs:1806-1830 | no commitment that names a payment whose expiries are too close is accepted |
| `LedgerBounds.BadExpiryFreezes` | vls-core/src/policy/simple_validator.rs:1806-1830 | in every run that does not prune it such a payment's expiries stay too close, and each channel's amounts stay as they are if and only if no revocation applies a kept commitment with other amounts |
| `ChannelPayments.SummaryAmounts` | vls-core/src/policy/validator.rs:1116-1196 | the two summaries give, for every payment hash, the greater outgoing and the lesser incoming amount of the two commitments, and leave out only payments that neither the current nor the new pair has in flight |
| `LedgerMirror.StepKeepsMirror` | vls-core/src/channel.rs:872-903 | an operation keeps the ledger's record of a channel equal to what its two current commitments have in flight, exactly when it is not one that moves one without the other |
| `LedgerMirror.LedgerMirrorsCommitments` | vls-core/src/policy/validator.rs:1116-1196 | over every run, at every point, that equality holds if and only if no step detaches the two |
| `LedgerMirror.CommittedIsBounded` | vls-core/src/node.rs:495-621 | over every run that respects the invoice and detaches nothing, the commitments of all channels together send out at most what they bring in plus the invoice and the routing fee |
| `ChannelPayments.LearnWorth` | vls-core/src/tx/tx.rs:207-237 | a new preimage makes a channel whose two commitments agree on the payment worth what comes in more and what goes out less |
| `LedgerBalances.WorthAccounted` | vls-core/src/policy/validator.rs:1210-1401 | over every regular run (one funding per channel, ledger and commitments attached, channels agreed on a payment when its preimage comes or goes) the register has moved by exactly the change in what all channels are worth, apart from what moved with invoices we pay or are paid, however validations and revocations interleave |
| `LedgerBalances.WorthProtected` | vls-core/src/node.rs:483-621 | over every such run that respects the invoices, all channels together lose at most what the register held at the start and what the invoices paid on the way allow, with their routing fees |
| `LedgerBalances.RevocationPanics` | vls-core/src/node.rs:670-691 | after every regular run a revocation panics exactly when all channels together would have lost, invoices apart, more than the register held at the start, or the register overflows on the way |
| `ChannelPaymentObjects.SummarizePayments` | vls-core/src/policy/validator.rs:1198-1205 | the loop sums the HTLCs of each payment |
| `ChannelPaymentObjects.PaymentsSummary` | vls-core/src/policy/validator.rs:1116-1150 | the union loop and the two zero-filling loops compute the outgoing summary |
| `ChannelPaymentObjects.IncomingPaymentsSummary` | vls-core/src/policy/validator.rs:1161-1196 | the intersection loop and the two zero-filling loops compute the incoming summary |
| `ChannelPaymentObjects.ClaimableBalance` | vls-core/src/tx/tx.rs:207-237 | the checked sums give the claimable balance, or nothing exactly when the totals do not fit |
| `ChannelPaymentObjects.LivePayments.SignCounterpartyCommitment` | vls-core/src/channel.rs:872-903 | validated, stored and applied at once, as in the runs |
| `ChannelPaymentObjects.LivePayments.ValidateHolderCommitment` | vls-core/src/channel.rs:1306-1341 | validated and kept if it is the next one; the ledger is not touched |
| `ChannelPaymentObjects.LivePayments.RevokePreviousCommitment` | vls-core/src/channel.rs:1388-1421 | the kept commitment is taken, summarised anew, made current and applied |
| `LedgerRuns.PruneIsSafe` | vls-core/src/node.rs:840-936 | a heartbeat drops a payment only if it is fulfilled or sends nothing out, and changes nothing it keeps |
| `LedgerRuns.PruneTwice` | vls-core/src/node.rs:2260-2264 | pruning again at the same time changes nothing |
| `LedgerObjects.PredictTotals` | vls-core/src/node.rs:250-262 | the sums over the per-channel maps, with the channel's share replaced |
| `LedgerObjects.LiveLedger.ValidatePayments` | vls-core/src/node.rs:495-621 | the loop over the unordered hashes gives the verdict, whatever its order |
| `LedgerObjects.LiveLedger.ApplyPayments` | vls-core/src/node.rs:625-733 | the four loops give one final ledger, whatever their order, and fail exactly where the source panics |
| `LedgerObjects.LiveLedger.HtlcFulfilled` | vls-core/src/node.rs:737-806 | new ledger, panic, and whether anything was fulfilled |
| `LedgerObjects.LiveLedger.AddInvoice` | vls-core/src/node.rs:2995-3042 | the four outcomes of adding an invoice, and that a new one gets a payment unless there is one |
| `LedgerObjects.LiveLedger.SignInvoice` | vls-core/src/node.rs:2738-2766 | the outcomes of issuing an invoice, and that one for nothing is not remembered |
| `LedgerObjects.LiveLedger.PruneInvoices` | vls-core/src/node.rs:840-887 | invoices and their payments after pruning; it fails exactly when an invoice has no payment |
| `LedgerObjects.LiveLedger.PruneIssuedInvoices` | vls-core/src/node.rs:821-838 | issued invoices after pruning |
| `LedgerObjects.LiveLedger.PruneForwardedPayments` | vls-core/src/node.rs:889-904 | forwarded payments after pruning |
| `LedgerObjects.LiveLedger.Heartbeat` | vls-core/src/node.rs:2260-2264 | the three prunes in order are the pruning the theorems are about |
| `Locks.Progress` | vls-core/src/node.rs:77-107 | while any thread is unfinished, some thread that obeys the order can move |
| `Locks.CompletesFrom` | vls-core/src/node.rs:77-107 | from every such state all threads can finish |
| `Locks.DeadlockStays` | vls-core/src/node.rs:77-107 | two threads that wait for each other never finish |
| `NodeLocks.OpObeys` | vls-core/src/node.rs:77-107 | every program of the staged shape obeys the lock order and gives back every lock |
| `NodeLocks.AlwaysCompletes` | vls-core/src/node.rs:77-107 | any number of such programs in any interleaving never get stuck and can always finish, if and only if none reads, under its slot and outside the tracker, a monitor that a concurrent block makes call its provider |
| `NodeOperations.OperationObeys` | vls-core/src/node.rs:1680-1692 | each of the node's operations, as the source takes its mutexes, obeys the lock order, gives back every mutex, and reads outside the tracker exactly the monitors listed for it |
| `NodeOperations.OperationsComplete` | vls-core/src/node.rs:77-107 | pools of signing calls, balances, information, forgets, heartbeats, new channels, on-chain checks and signatures, set-ups, splices and blocks can always finish if and only if no listed monitor belongs to a channel a block consults; then no state is stuck |
| `NodeOperations.BesideABlock` | vls-core/src/monitor.rs:1059-1087 | beside a block, each operation can deadlock exactly when it views a channel the block consults |
| `NodeOperations.GatedNeverDeadlocks` | vls-core/src/node.rs:1955-2250 | creating, checking, funding, setting up and splicing a channel never deadlock with a block |
| `NodeOperations.WithoutBlocks` | vls-core/src/node.rs:3306-3324 | without block processing any number of operations always finish |
| `NodeOperations.SigningAndBlockDeadlock` | vls-core/src/channel.rs:4025-4053 | one signing call and one block on the same channel that can deadlock |
| `NodeOperations.ShapeOfHeartbeat` | vls-core/src/node.rs:2254-2292 | a heartbeat reads monitors outside the tracker only for its balances, never for its pruning |
| `NodeLocks.ClashDeadlocks` | vls-core/src/channel.rs:4025-4053 | such a clash reaches a state from which the operations never finish |
| `Pruning.LiveNode.PruneChannels` | vls-core/src/node.rs:3223-3287 | exactly the done channels and old stubs go, and exactly the listeners of the done channels |
| `Pruning.LiveNode.GatherPrunable` | vls-core/src/node.rs:3229-3262 | the gathered keys are exactly the prunable channels |
| `Pruning.UnresolvedIsKept` | vls-core/src/node.rs:3223-3287 | in one node state, a channel whose monitor is true to the chain and not resolved is kept and keeps listening |
| `NodeRuns.MonitorsAreTrue` | vls-core/src/chain/tracker.rs:539-553 | along every run of set-ups, fundings signed, blocks added and removed, also below a set-up, forgets and heartbeats, each channel's monitor satisfies the invariant against the blocks then on the chain |
| `NodeRuns.OnlyDependentRemovalPanics` | vls-core/src/chain/tracker.rs:400-419 | after any such run a step panics exactly when it removes a block some monitor that followed it cannot undo |
| `NodeRuns.RegisteredExactly` | vls-core/src/monitor.rs:930-935 | registering funding inputs keeps a monitor true to the chain if and only if no input was spent by another transaction, or a double spend is recorded, and a confirmed funding spent them all |
| `NodeRuns.HeartbeatDrops` | vls-core/src/node.rs:3223-3287 | pruning the node's slots is the heartbeat step of the runs |
| `NodeRuns.NoEarlyPruning` | vls-core/src/node.rs:3223-3287 | after any run, a heartbeat keeps and leaves listening every ready channel the blocks then on the chain have not resolved 100 deep |
| `Fleet.MoveKeeps` | vls-core/src/chain/tracker.rs:400-553 | members that share one stack stay in step with it; a legal move fails exactly when it removes what some member cannot undo |
| `Eras.WindowIsLastThree` | vls-core/src/node.rs:1987-2076 | over every run of splices and locks the reachable setups are the last three since the last effective lock |
| `Eras.RoutersAgree` | vls-core/src/channel.rs:2272-2293 | in every reachable state the outpoint router, the splice signer's lookup and the transaction router pick the newest matching era of those three |
| `Eras.FirstLiveInput` | vls-core/src/channel.rs:2234-2255 | the transaction router picks the first input with a live era, and the current era when there is none |
| `Eras.SignsOnlyLiveEra` | vls-core/src/channel.rs:2127-2198 | a splice signature, with or without a named amount, spends one of the last three eras with that era's key and over its value |
| `Eras.CompatibleMeans` | vls-core/src/channel.rs:2299-2313 | a setup is compatible exactly when the negotiated terms are kept and the funding differs |
| `Eras.NegotiatedTermsStay` | vls-core/src/channel.rs:2299-2313 | between any two points of a run the terms agree; a shutdown script changes at most once, from unset to set |
| `Eras.UnsetScriptCanBeSet` | vls-core/src/channel.rs:2295-2313 | a splice can set an unset shutdown script |
| `Eras.ScriptStaysUnset` | vls-core/src/channel.rs:2295-2313 | over every run, each party's unset script is still unset if and only if no accepted splice of the run carried one |
| `Eras.LockClosesWindow` | vls-core/src/channel.rs:2342-2361 | after a lock that is not refused one era is left, unless the outpoint was already the locked one and a splice is open |
| `Eras.RelockingLeavesWindowOpen` | vls-core/src/channel.rs:2342-2345 | a run in which locking the current funding leaves three eras open |
| `Eras.SplicesFit` | vls-core/src/node.rs:2035-2042 | in every reachable splice a plain push fits the new funding value |
| `Eras.LockConserves` | vls-core/src/channel.rs:2362-2391 | locking a splice records mirrored baselines that sum to the funding value, if and only if the push is plain or the holder's initial value fits |
| `Eras.LiveChannel.SetupSplice` | vls-core/src/node.rs:1987-2082 | the swap and its refusals; the swap stands even when the later validation fails |
| `Eras.LiveChannel.ConfirmFundingLocked` | vls-core/src/channel.rs:2342-2394 | the lock, its early return and its refusal |
| `Eras.LiveChannel.FindSetupForTx` | vls-core/src/channel.rs:2234-2255 | the loop over the inputs computes the transaction router |
| `Revocation.NumberMoves` | vls-core/src/channel.rs:1171-1187 | the commitment number never goes back, and moves by one exactly when a stored commitment is activated or revoked into |
| `Revocation.SecretsFollowValidation` | vls-core/src/channel.rs:583-606 | in every run, before the secret of n leaves, every commitment up to n + 1 was validated and stored |
| `Revocation.ClosesUnrevoked` | vls-core/src/channel.rs:1429-1458 | no close is signed with a number whose secret left earlier in the run |
| `Revocation.ClosedStaysUnrevoked` | vls-core/src/channel.rs:1499-1549 | after a recorded close its secret never leaves in any continuation, if and only if the close did not pick the current commitment while the next was pending |
| `Revocation.RecoveryStaysUnrevoked` | vls-core/src/channel.rs:1460-1473 | the commitment picked for recovery is never revoked afterwards |
| `Revocation.RecoveryOutcome` | vls-core/src/channel.rs:1429-1473 | when recovery succeeds, when it panics, and when its HTLCs are signed for the closing number |
| `RevocationExamples.RecoveryAfterSplicePanics` | vls-core/src/policy/validator.rs:285-305 | a run after which recovery panics |
| `Revocation.ClosesWithValidated` | vls-core/src/channel.rs:1429-1458 | over every run, the signatures of a close were validated for its number and content if and only if it picks the pending commitment, or a current one that got there by revocation or first activation and whose content no lock replaced by another |
| `Revocation.ClosesWithStored` | vls-core/src/channel.rs:1315-1338 | the close's pair was stored for its number at all under that condition, and only then if a signature signs one commitment |
| `RevocationExamples.ReactivationClosesOtherNumber` | vls-core/src/channel.rs:3541-3547 | a run that closes number 0 with what was validated for number 1 |
| `RevocationExamples.ClosedThenRevoked` | vls-core/src/channel.rs:1499-1549 | a run that closes number 0 and then releases its secret |
| `RevocationExamples.LockedSpliceMixesPair` | vls-core/src/channel.rs:2362-2391 | after a locked splice a close can pair a baseline with older signatures |
| `RevocationObjects.LiveEnforcement.ValidateHolderCommitment` | vls-core/src/channel.rs:1315-1338 | what is stored, in the pending slot or the retiring funding's record, and what is refused |
| `RevocationObjects.LiveEnforcement.RevokePreviousHolderCommitment` | vls-core/src/channel.rs:1358-1427 | state and released secret; the number assertion cannot fail |
| `RevocationObjects.LiveEnforcement.ReleaseCommitmentSecret` | vls-core/src/channel.rs:1191-1203 | the secret of the number before, or a refusal |
| `RevocationObjects.LiveEnforcement.SetNextHolderCommitNum` | vls-core/src/policy/validator.rs:968-982 | the number advances by one with its commitment, or the assertion fails |
| `RevocationObjects.LiveEnforcement.ActivateInitialCommitment` | vls-core/src/channel.rs:3524-3556 | first activation, same-number replacement during a splice, and the refusals |
| `RevocationObjects.LiveEnforcement.SnapshotFundingForSplice` | vls-core/src/policy/validator.rs:1081-1094 | the commitment state moves to the retiring funding's record |
| `RevocationObjects.LiveEnforcement.HolderCommitmentForClose` | vls-core/src/channel.rs:1429-1458 | pending if asked for and present, else current, else refused or a panic |
| `RevocationObjects.LiveEnforcement.LatestHolderCommitmentForClose` | vls-core/src/channel.rs:1460-1473 | the selection recovery makes |
| `RevocationObjects.LiveEnforcement.SignHolderCommitmentForClose` | vls-core/src/channel.rs:1499-1549 | a signed close marks the channel closed |
| `RevocationObjects.LiveEnforcement.SignForRecovery` | vls-core/src/channel.rs:1610-1697 | recovery marks the channel closed only when asked to and only if it succeeded |
| `Recovery.ClaimedExactlyOnce` | vls-core/src/channel.rs:1741-1767 | in both modes every claimable HTLC is an input of exactly one transaction, and no other is spent |
| `Recovery.ClaimsOnlyGrow` | vls-core/src/channel.rs:1713-1841 | a greater height, more preimages or fewer spent flags never lose a claim |
| `Recovery.PlanWellFormed` | vls-core/src/channel.rs:1871-1914 | inputs and outputs pair up HTLC by HTLC with the right signature, preimage and lock time; received claims come first, then offered ones by ascending expiry |
| `Recovery.BatchesAreMaximal` | vls-core/src/channel.rs:1770-1806 | a zero-fee channel makes one transaction for all received claims and one per expiry |
| `Recovery.Collect` | vls-core/src/channel.rs:1739-1767 | one pass collects the received claims and groups the offered ones by expiry |
| `Recovery.BuildBatched` | vls-core/src/channel.rs:1843-1914 | one transaction, or a failure exactly when a signature is missing or the lock time is no height |
| `Recovery.SignHtlcs` | vls-core/src/channel.rs:1713-1841 | it succeeds exactly when the flags match the HTLCs and every claim can be signed, and then returns the plan of the theorems |

## Left out

- Signatures, key derivation, sighashes, scripts and transaction recomposition: foreign cryptography; their answers are parameters or tokens.
- The rest of the validator's policy checks, velocity control, allowlists and invoices' contents.
- Replacing the funding outpoint of a monitor between adding and removing a block; several funding transactions in one monitor.
- Overflow of 64-bit sums of in-flight amounts and of commitment numbers near the top of the range; both are natural numbers here. The excess register's range is modelled.
- Persistence, restoring a node, tracing and logging; a failed write is not modelled.
- Counterparty commitments, their revocation secrets and the mutual-close checks.
- NodeOperations.OperationsComplete: locks inside the persister and the entropy source are not modelled, and a panic that poisons a mutex is not a step.
- NodeRuns.NoEarlyPruning: a channel whose funding is on the chain before it is set up or signed is not in its runs; its monitor never learns of that funding.
- LedgerBalances.WorthAccounted: the balance change of a commitment during a splice, where old and new funding are valued side by side, is a parameter of the runs and not worked out.
- Eras.RoutersAgree: the value and balance checks that follow the choice of an era are not modelled.
- Recovery.PlanWellFormed: output amounts after fees and witnesses are not modelled, an output is the HTLC it pays.
- The other crates of the repository (protocol handlers, proxies, persistence back ends, command line, embedded builds, fuzzing): input, output and plumbing.
