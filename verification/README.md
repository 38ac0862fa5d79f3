# What this project models

A Dafny model of the parts of the service that move money: the nonce-ordered
queues that sign for one account, the swap state machine on top of them, the
earn queue with its pool netting, and the exact arithmetic behind quotes,
earnings and charts. `dafny verify dfyconfig.toml` checks the whole project.

| files | source |
|---|---|
| `EvmQueue`, `EvmRequeue`, `EvmBatcher` | src/clients/evm_batcher.py |
| `LaneQueue`, `LaneCopies`, `LaneOnce`, `LaneGaps`, `TransferLane`, `WithdrawQueue`, `WithdrawLane` | src/clients/privana_lanes.py |
| `SwapCase`, `SwapStages`, `SwapLedger`, `SwapWallet`, `SwapReserve`, `InternalPricing` | src/services/swap/stage.py, lifi_pipeline.py, internal_pipeline.py |
| `UserQueue` | src/services/user_queue.py, swap/executor.py and the two claim loops |
| `EarnQueue`, `EarnWorker`, `DeployReclaim` | src/services/earn/worker.py, vault_service.py |
| `Fees`, `SlippageFloor`, `MidasSizing`, `EarnedLedger`, `EarnRates`, `EarnValue`, `PortfolioReplay`, `TimeSeries` | src/core/fees.py, the slippage search of lifi_pipeline.py, midas.py, earned.py, rate_provider.py, value_history.py, reconstruction.py, valuation.py |
| `Layers` | how the rows of the batcher and of both lanes appear to the swaps |
| `Tables` | the queries the tables share |

**How the queues are modelled.** A queue is a `World` (rows, chain, what may still
arrive), a type of atomic acts, the guard of each act and its effect. A run is any
sequence of enabled acts, so every interleaving of threads, lost reply, late read
and crash is a run: a crash loses only memory, and no act depends on memory, but for
the hold of a pool's bridge, which the act `Restart` of `DeployReclaim` loses. The
theorems are about all runs. Beside each queue stands a class with the loops of the
source. Its fields are the real state, its ghost `trace` records every act, and
`Valid` says that the trace is a run; between its steps the class lets other
threads, nodes and the clock do anything. So what is proved of runs holds of the
loops.

**What is trusted, as the source trusts it.** A tx a node refused before any attempt
was out is never mined. A receipt of a nonce used for `STUCK_AFTER_SEC` shows. A
withdrawal sent once, refused, and not landed by the count read `WITHDRAW_RESEND_SEC`
later never lands. Of the bridge requests at one withdrawal nonce of a pool account
one is debited at most. `SwapManager.swap` is both transfers or neither. Signatures
are opaque. A user's transfer nonce is spent once, and a read of it is true. The two
clocks of the batcher are one, the receipts of one row and its deadline are read at one
instant, and rows are created in the order of their ids.
The swaps take from the two lower layers only what is proved there: whatever the
batcher, a node or the chain does with a queued tx is an event `SwapCase` allows for
one (`Layers.BatcherRefines`), and so is whatever happens to a transfer row as long
as the lane's steps are guarded (`Layers.LaneRefines`). So is whatever happens to a
withdrawal, exactly unless it is settled though another withdrawal spent its nonce
(`Layers.WithdrawRefinesIff`): the swaps trust that the service alone withdraws for its
signer, as src/clients/privana_lanes.py:342 does, and then it never is
(`Layers.WithdrawRefines`).

**Where the code does less than its comments or a reader may expect.**

- Requeueing an older tx ahead of a signed one gives both the same nonce
  (`RequeueAheadReusesNonce`); it keeps the order exactly when no row behind holds a
  signed attempt (`RequeueKeepsOrderIff`). That guard does not help a requeue that
  comes while a later row is picked but not signed yet
  (`RequeueMidBatchReusesNonce`); `Calm` is a condition that does, not shown to be the
  weakest one.
- A copy of a lane row's signed transfer, sent by someone else, can make the row move
  twice. Each step keeps every row moving at most once, and never while queued or once
  failed on its own, exactly under three conditions: our tx runs only a row that has
  not moved; a copy moves only such a row, and one neither queued nor failed on its
  own; and a row that moved though its tx died is settled only on a count past its
  nonce (`LaneOnce.KeepsOnceIff`; over runs, `OnceIff`). It keeps every row moving, as
  well, only at the nonce it was last signed at exactly when a copy moves only the sent
  row whose nonce is next, with the same condition on settling (`KeepsMovedIff`,
  `MovedOkRunIff`). The code keeps none of this from happening: though every count it
  reads is true, a copy of an earlier signature moves a row again after it landed
  (`OldCopyMovesTwice`).
- NO_FUNDS_MOVED is to be recorded only where the user's funds provably did not move
  (src/services/swap/stage.py:131-134). When recorded it is true, unless the swap is
  internal and a copy of the user's signed input, sent by someone else, moved it
  (`NoFundsMovedIff`): that venue never reads the user's nonce, and takes the reverting
  simulation for a failed swap (`CopiedUnseen`).
- Sent rows hold consecutive nonces when signed, and from then on exactly as long as
  rows leave them at an end (`ConsecutiveIff`). One settled between two others leaves
  a gap (`SettleLeavesGap`); what is always kept is each row's place in its batch.
- The double read of `_holds` misses a tx mined after its balance read together with a
  submission (`HoldsMissesBoth`). It is sound if nothing mined after the balance read
  takes from the wallet, or if no claim is added between the reads, whatever else
  happens (`HoldsIsSound`); that is not shown to be the weakest condition.
- The pricing of internal swaps counts what the lanes will pay, but not what came in
  for a LiFi swap that has not moved on yet, so a fill can take it and leave the LP
  short of its own queued writes (`FillTakesArrived`). The balance covers them
  throughout exactly when every fill is within what is not owed (`BackedIff`), which
  the check ensures while nothing that came in is uncounted (`CheckSuffices`).
- A pool's hold is memory. A restart, or a round that finds nothing in a bridge while
  its request is still to be debited, drops it, and the balance is promised twice
  (`HoldLost`). The account stays funded exactly when every payout is admitted within
  the balance less the bridge still out (`FundedIff`), which the hold ensures while it
  is kept (`AlwaysFunded`).
- Money reclaimed for a withdrawal that then fails is bridged back
  (`FailureBridgesBack`), though never more than what failed (`ReclaimStays`).
- `size_redeem` is the smallest covering amount, as its docstring says, for every
  target if and only if the redemption fee is zero (`SmallestIff`); with a fee it is
  not at the target of `NotLeastWithFee`. It is less than 1 + 10000 / (10000 - fee)
  base units of mTBILL above when its first estimate covers, else less than the step.
- Earn values are stepped along the grid as if growth composed. The resolver's does
  exactly when no pool is read from samples, or its samples agree with its APY history
  wherever they are (`ResolverComposesIff`). Stepping gives the direct sum for every
  history and grid of a pool exactly where its growth composes (`StepwiseIff`), and so
  under that condition (`ResolverStepsIff`); a pool whose rate doubled between its
  samples, with no APY history, is worth twice its direct sum (`SteppedDiffers`).
- The USDC to mTBILL round trip is the identity exactly up to a price
  (`RoundTripIff`).

## Model

| member | source | states |
|---|---|---|
| EvmQueue.Enqueue | src/clients/evm_batcher.py:364-382 | queueing keeps every row there was and adds only fresh ones |
| EvmQueue.SubmitTwice | src/clients/evm_batcher.py:364-382 | submitting the same owners again changes nothing, whatever was queued before |
| EvmQueue.EnqueueKeepsOneEach | src/clients/evm_batcher.py:371-378 | one row per owner, for good |
| EvmQueue.KeepsInv | src/clients/evm_batcher.py:136-281 | every act keeps: a row's attempts hold one nonce, only recorded versions are mined, and a settled row says what the chain did |
| EvmQueue.AtMostOnceOnChain | src/clients/evm_batcher.py:174-281 | in every run at most one version of a tx is mined, at the nonce its attempts hold; MINED and REVERTED name that version and receipt, FAILED means none is mined |
| EvmQueue.SettledForGood | src/clients/evm_batcher.py:335-345 | a row settled after a signed attempt never changes again, so a FAILED one is never mined later |
| EvmQueue.KeepsOrdered | src/clients/evm_batcher.py:171-189 | the batcher's acts keep signed queued rows a prefix in id order with rising nonces, no nonce held twice |
| EvmQueue.OrderedRun | src/clients/evm_batcher.py:136-189 | so does every run of orderly acts, a new attempt being past every nonce held or finished on |
| EvmQueue.OutIsConsecutive | src/clients/evm_batcher.py:171-189 | in order, every nonce from the chain's next one up to any that is out is held by a queued row: no tx waits for a missing nonce |
| EvmQueue.RequeueKeepsOrderIff | src/clients/evm_batcher.py:392-405 | requeueing keeps the order if and only if no row behind a requeued one holds a signed attempt |
| EvmRequeue.RequeueAheadReusesNonce | src/clients/evm_batcher.py:392-405 | a run in which an older row requeued ahead of a signed one takes its nonce, and the later row fails to our own tx |
| EvmRequeue.RequeueMidBatchReusesNonce | src/clients/evm_batcher.py:392-405 | a run in which the same follows from a requeue between picking and signing |
| EvmQueue.LostOnlyToForeign | src/clients/evm_batcher.py:154-164 | in order, a row that failed because its nonce was taken lost it to a tx not sent through the queue |
| Tables.FirstWhereSkipsNone | src/clients/evm_batcher.py:137-141 | a batch is the oldest rows of its kind: one passed over is behind a full batch |
| Tables.NextAfter | src/clients/evm_batcher.py:302-307 | one past the highest nonce among the rows, zero without any |
| EvmBatcher.NextAfterMinedWithinChain | src/clients/evm_batcher.py:302-307 | the table never claims more nonces than the chain mined |
| EvmBatcher.SettledBelowNext | src/clients/evm_batcher.py:302-307 | every nonce a settled row held is below the next one |
| EvmBatcher.RaiseOutbids | src/clients/evm_batcher.py:203-207 | a replacement pays the asked fees and, on each fee, more than the bump nodes demand |
| EvmBatcher.NextFits | src/clients/evm_batcher.py:174-189 | in order, the batch's next nonce exceeds every nonce held or finished on when the next unsigned row takes it |
| EvmBatcher.NoGapTreated | src/clients/evm_batcher.py:186-189 | after each row the next nonce is still used up to, or one past a held one |
| EvmBatcher.EvmBatcher.constructor | src/clients/evm_batcher.py:109-119 | a restart from any table and chain: memory empty, the run starts there |
| EvmBatcher.EvmBatcher.Receipt | src/clients/evm_batcher.py:268-281 | a receipt shown is the chain's; one not shown STUCK_AFTER_SEC after the nonce was used means another tx took it |
| EvmBatcher.EvmBatcher.FindReceipt | src/clients/evm_batcher.py:268-281 | the first attempt with a receipt, or none for any |
| EvmBatcher.EvmBatcher.Settle | src/clients/evm_batcher.py:268-281 | settled, unknown (nonce used, no receipt) or open, with what each proves about the chain |
| EvmBatcher.EvmBatcher.Review | src/clients/evm_batcher.py:148-170 | a row is settled, failed once stuck, holds the queue with the reason, or had its full receipt wait |
| EvmBatcher.EvmBatcher.SettleBatch | src/clients/evm_batcher.py:147-170 | every row of the batch is settled or kept for sending, unless one holds the queue |
| EvmBatcher.EvmBatcher.Price | src/clients/evm_batcher.py:197-207 | a retry outbids a version the node still holds, or waits while that one can be mined |
| EvmBatcher.EvmBatcher.Record | src/clients/evm_batcher.py:240-246 | the attempt is in the table before it is broadcast, and nothing behind it is signed |
| EvmBatcher.EvmBatcher.Drop | src/clients/evm_batcher.py:254-259 | a refused first attempt leaves a row that failed unsigned |
| EvmBatcher.EvmBatcher.Send | src/clients/evm_batcher.py:196-266 | sent at the given nonce, failed unsigned, or stopped with a reason; other rows untouched |
| EvmBatcher.EvmBatcher.Treat | src/clients/evm_batcher.py:177-189 | a retry keeps its nonce, a new row takes the next one, and an unsimulated row behind a failed one fails unsent |
| EvmBatcher.EvmBatcher.SendUnsent | src/clients/evm_batcher.py:174-189 | rows go out in id order at rising nonces until one stops; otherwise each is sent or failed |
| EvmBatcher.EvmBatcher.RunBatch | src/clients/evm_batcher.py:136-194 | one batch extends the run by allowed acts, in nonce order while calm; unless it halts for a stated reason every row of it is handled |
| EvmBatcher.EvmBatcher.Submit | src/clients/evm_batcher.py:364-382 | after it every owner has its row, and no other row changed |
| EvmBatcher.EvmBatcher.Requeue | src/clients/evm_batcher.py:392-405 | exactly the owners' rows that failed unsigned are queued again, and none of them was mined |
| LaneQueue.SignFirstAt | src/clients/privana_lanes.py:250-279 | the batch is signed at consecutive nonces in id order, only its first simulated, other rows untouched |
| LaneQueue.KeepsInv | src/clients/privana_lanes.py:199-283 | every act keeps: all signings but the last dead, LANDED backed by our tx, sent rows at their place in the batch |
| LaneQueue.RunsAtMostOnce | src/clients/privana_lanes.py:199-283 | in every run our txs run a row at most once; LANDED once, FAILED and QUEUED never; signed again only once the last tx is final and not mined |
| LaneOnce.KeepsOnceIff | src/clients/privana_lanes.py:215-247 | counting copies by others, a step keeps every row moving at most once, and never while queued or once failed on its own, if and only if our tx runs no row that moved, a copy moves none that moved, is queued or failed on its own, and no row that moved though its tx died is settled on a count not past its nonce |
| LaneOnce.OnceIff | src/clients/privana_lanes.py:199-283 | so a whole run keeps it throughout if and only if each of its steps is such a step |
| LaneCopies.KeepsMovedIff | src/clients/privana_lanes.py:215-247 | a step keeps every row moving at most once, never if it is queued or failed on its own, and only at the nonce it was last signed at, if and only if it settles no row on a count from before its copy moved and any copy moves the sent row whose nonce is next |
| LaneCopies.MovedOkRunIff | src/clients/privana_lanes.py:199-283 | so a whole run keeps it throughout, last nonce included, if and only if each of its steps is such a step |
| LaneCopies.MovesAtMostOnce | src/clients/privana_lanes.py:215-247 | in such a run each row moves at most once, LANDED exactly once, FAILED other than by a foreign spend never |
| LaneCopies.OldCopyMovesTwice | src/clients/privana_lanes.py:227-247 | a run from an empty lane, on true counts only, after which a copy of a row's earlier signature moves the landed row again |
| LaneGaps.KeepsConsecutiveIff | src/clients/privana_lanes.py:204-212 | a step keeps the nonces of the sent rows consecutive if and only if it takes no row from between two others |
| LaneGaps.ConsecutiveIff | src/clients/privana_lanes.py:199-283 | so they are consecutive throughout a run if and only if rows always leave them at an end |
| LaneGaps.SettleLeavesGap | src/clients/privana_lanes.py:227-247 | a run in which the second of three sent rows is queued again between the others |
| LaneQueue.SignsAtTheCount | src/clients/privana_lanes.py:200-212 | with no one else spending, a batch is signed at the true count however late the read |
| LaneQueue.RunsInIdOrder | src/clients/privana_lanes.py:250-279 | then rows run in id order, in every run from an empty lane |
| LaneQueue.FailsOnlyAtHead | src/clients/privana_lanes.py:227-243 | then a row fails only as the simulated head of its batch at the true count; one behind a failing row is queued again |
| LaneQueue.HeadFinishes | src/clients/privana_lanes.py:215-243 | settled at the true count without a gas refusal, the head of a batch lands or fails |
| LaneQueue.Progress | src/clients/privana_lanes.py:204-212 | in every clean run each signing is matched by a finished row or a head still out |
| LaneQueue.WithinNBatches | src/clients/privana_lanes.py:199-283 | n unfinished rows are all finished once n batches were signed and settled |
| TransferLane.SentInNonceOrder | src/clients/privana_lanes.py:306-312 | the nonce order of sent rows is their id order |
| TransferLane.StaysReadable | src/clients/privana_lanes.py:200-205 | the one count of a round stays usable through all of it |
| TransferLane.SignAll | src/clients/privana_lanes.py:256-279 | the signing loop computes the batch's signing |
| TransferLane.TransferLane.SettleRow | src/clients/privana_lanes.py:215-247 | one row becomes what settling it at the count says, the others stay |
| TransferLane.TransferLane.SignBatch | src/clients/privana_lanes.py:250-283 | all of the batch signed in one step of the run |
| TransferLane.TransferLane.RunLane | src/clients/privana_lanes.py:199-212 | settles every sent row once, at one count not below the read or what landed, and signs the next batch exactly when none is left sent, one is queued and gas is not refused |
| WithdrawQueue.Safe | src/clients/privana_lanes.py:362-458 | in every run one withdrawal is out at most, sent at most WITHDRAW_MAX_SENDS times and landed at most once; sent twice it never fails, and a FAILED one never landed |
| WithdrawQueue.SignedOnce | src/clients/privana_lanes.py:405-422 | once signed a withdrawal keeps its nonce and request for good |
| WithdrawQueue.LandsInOrder | src/clients/privana_lanes.py:376-378 | landed nonces rise in landing order |
| WithdrawQueue.SignsAtTheCount | src/clients/privana_lanes.py:399-403 | with no one else withdrawing, signed at the true count however late the read |
| WithdrawQueue.LandedIsTrue | src/clients/privana_lanes.py:376-378 | then LANDED means it landed, exactly once |
| WithdrawLane.PickIs | src/clients/privana_lanes.py:363-370 | the row of a round: the sent one, else the oldest queued with none sent |
| WithdrawLane.WithdrawLane.Counter | src/clients/privana_lanes.py:399-403 | a count at least what landed and at most the chain's |
| WithdrawLane.WithdrawLane.SignRow | src/clients/privana_lanes.py:405-422 | signed exactly when the row is still queued |
| WithdrawLane.WithdrawLane.Send | src/clients/privana_lanes.py:424-458 | the request, then at most one write: landed, or the refusal of a first send |
| WithdrawLane.WithdrawLane.Proceed | src/clients/privana_lanes.py:376-397 | a sent row is settled, failed, given up on or sent again, and only waits within WITHDRAW_RESEND_SEC |
| WithdrawLane.WithdrawLane.RunRound | src/clients/privana_lanes.py:362-397 | one round on the picked row; it does nothing only if the row was cancelled or its last send is recent |
| SwapCase.MovesUp | src/services/swap/lifi_pipeline.py:159-382 | every move goes up one fixed rank, so steps never cycle and finished places are left by none |
| SwapCase.FinishedForGood | src/services/swap/stage.py:115-139 | finished stays finished in every run |
| SwapCase.KeepsInv | src/services/swap/lifi_pipeline.py:159-382 | every act keeps what each place visited proves about the swap's writes, and that a tx not final holds its swap where it was sent |
| SwapCase.PaysOnce | src/services/swap/lifi_pipeline.py:333-382 | in every run of either venue at most one of credit, refund payout and internal swap is ever even queued |
| SwapCase.LifiHistory | src/services/swap/lifi_pipeline.py:260-285 | the output and the refund branches exclude each other |
| SwapCase.RefundPath | src/services/swap/lifi_pipeline.py:344-372 | a refund is reached only where the withdrawal failed or the LiFi tx never took effect |
| SwapCase.RefundsKeptInput | src/services/swap/lifi_pipeline.py:344-349 | no refund is paid for an input the LiFi tx spent |
| SwapCase.NoFundsMovedIff | src/services/swap/lifi_pipeline.py:174-184 | when NO_FUNDS_MOVED is recorded the input moved, by our tx or a copy of it, if and only if the swap is internal and a copy moved it |
| SwapCase.CopiedUnseen | src/services/swap/internal_pipeline.py:91-104 | a run in which a copy moves the input of an internal swap that then ends NO_FUNDS_MOVED |
| SwapCase.FinishedIsTrue | src/services/swap/lifi_pipeline.py:333-382 | COMPLETED and REFUNDED mean the matching lane row landed and paid, NO_FUNDS_MOVED that no tx of ours moved the input |
| SwapStages.SwapRow.Update | src/services/swap/stage.py:142-153 | writes exactly while the swap is where it was read |
| SwapStages.SwapRow.RetryForGas | src/services/swap/lifi_pipeline.py:420-434 | held exactly for a tx refused for gas before signing, which stays or is queued again at its own step |
| SwapStages.SwapRow.Claim | src/services/swap/stage.py:56-66 | a scheduled swap moves to its venue's first step |
| SwapStages.SwapRow.SettleInput | src/services/swap/lifi_pipeline.py:159-184 | a stale or fresh handler makes at most one allowed act; a final input tx moves the swap on, to NO_FUNDS_MOVED only while no one spent the user's nonce |
| SwapStages.SwapRow.SettleWithdraw | src/services/swap/lifi_pipeline.py:187-205 | so for the withdrawal, a cancel and its refund being two |
| SwapStages.SwapRow.SendLifiTx | src/services/swap/lifi_pipeline.py:217-257 | queued only if both wallet checks passed and LiFi's minimum still nets the user the floor; for its price refunded only if never queued and the expected output misses the floor |
| SwapStages.SwapRow.SettleLifiTx | src/services/swap/lifi_pipeline.py:260-285 | a final LiFi tx moves the swap on, to a refund only if it provably spent nothing |
| SwapStages.SwapRow.SettleBridge | src/services/swap/lifi_pipeline.py:288-308 | on only what was delivered, in time and in full |
| SwapStages.SwapRow.SettleWalletTx | src/services/swap/lifi_pipeline.py:311-330 | the deposit, and the redeposit alike, is queued only if the wallet check passes, is if it does in time, and moves on once final |
| SwapStages.SwapRow.CheckCredited | src/services/swap/lifi_pipeline.py:405-417 | on only once the deposit is credited |
| SwapStages.SwapRow.SettlePayment | src/services/swap/lifi_pipeline.py:333-382 | credit, refund payout and internal swap: queued once, and the swap ends as the row does; a stale handler changes nothing |
| InternalPricing.Price | src/services/swap/internal_pipeline.py:107-129 | the fill loop with its per-token balances decides each swap as the running balance says |
| InternalPricing.NeverOversells | src/services/swap/internal_pipeline.py:116-128 | a round's fills of a token and what is left make up the balance read, and never exceed it |
| SwapReserve.KeepsBackedIff | src/services/swap/internal_pipeline.py:116-129 | every step of either venue keeps the LP's balance covering what its lanes will still pay, but a fill beyond what is not owed |
| SwapReserve.BackedIff | src/services/swap/internal_pipeline.py:116-129 | so over every run it is covered throughout if and only if every fill is within that |
| SwapReserve.CheckSuffices | src/services/swap/lifi_pipeline.py:532-552 | the code's own count ensures it in every run in which no money that came in for another swap is uncounted when a fill is made |
| SwapReserve.FillTakesArrived | src/services/swap/internal_pipeline.py:116-129 | a fill that passes the check takes an input just mined, and the balance falls short of the queued writes |
| SwapReserve.RoundPasses | src/services/swap/internal_pipeline.py:107-129 | the loop's running balances make every fill of a round pass the check at its own time |
| Layers.BatcherRefines | src/clients/evm_batcher.py:136-281 | every act on a batcher row is to its swap an event it allows for a tx, or the row's requeue |
| Layers.TxOfOk | src/clients/evm_batcher.py:268-281 | a settled tx ran if and only if it is MINED |
| Layers.LaneRefines | src/clients/privana_lanes.py:199-283 | every guarded act on a transfer row is to its swap nothing or an event it allows for a lane row |
| Layers.WithdrawRefinesIff | src/clients/privana_lanes.py:362-458 | every act on a withdrawal is to its swap nothing or an event it allows for, if and only if it settles no row whose nonce another withdrawal spent |
| Layers.WithdrawRefines | src/clients/privana_lanes.py:342-458 | with no one else withdrawing for the signer, so is every act in every run, and a LANDED withdrawal moved while a FAILED one did not |
| Layers.RowOfOk | src/clients/privana_lanes.py:215-247 | a LANDED row moved and one that failed on its own did not, copies counted |
| SwapLedger.ActConserves | src/services/swap/lifi_pipeline.py:159-417 | each act changes what its swap holds by exactly what it moves |
| SwapLedger.Conservation | src/services/swap/lifi_pipeline.py:159-417 | over every run, in every token: Privana balance, wallet and transit are the starting float plus what the swaps hold, inputs moved by copies and given back by LiFi included |
| SwapLedger.HeldDue | src/services/swap/lifi_pipeline.py:159-417 | what a swap holds is what its step says: the input, the output, the fee of `calculate_fee`, or nothing; a parked LiFi swap its input alone, what LiFi gave back of it, or of its output all, the fee or nothing |
| SwapLedger.HeldIsDue | src/services/swap/lifi_pipeline.py:333-382 | so in every run a refunded swap cost the LP nothing and a completed one left exactly the fee of `calculate_fee` on what was received |
| SwapLedger.FloatAndFees | src/services/swap/lifi_pipeline.py:333-382 | once every LiFi swap ended other than parked, the LP holds its float, the fees and the inputs only copies moved, so no less than its float |
| SwapWallet.CountsAllClaims | src/services/swap/lifi_pipeline.py:500-529 | the query of the tables counts at least every spend not mined yet and every output awaiting its deposit |
| SwapWallet.AlwaysCovered | src/services/swap/lifi_pipeline.py:246-257 | with each check, submit and move one step, the wallet covers every swap, redeposit and deposit tx not mined, those refused for gas included |
| SwapWallet.HoldsIsSound | src/services/swap/lifi_pipeline.py:483-497 | unless a tx mined after the balance read takes from the wallet and a claim is added between the reads as well, a passed check means the amount is there beyond every claim |
| SwapWallet.HoldsMissesBoth | src/services/swap/lifi_pipeline.py:483-497 | with a mining after the balance read and a submission it can pass on a wallet that is short |
| UserQueue.OnePerUser | src/services/user_queue.py:19-36 | over every run of both queues a user has one operation in flight at most, and no two queued or in-flight swaps and deposits of theirs hold one nonce |
| UserQueue.OldestFirst | src/services/swap/stage.py:44-66 | a user's swaps leave the queue oldest first, across venues |
| UserQueue.UserQueue.UsersInFlight | src/services/user_queue.py:23-32 | exactly the users with work in flight in either table |
| UserQueue.UserQueue.Schedule | src/services/swap/executor.py:19-57 | an identical request returns its row; a new row is made exactly for an acceptable, new request at a free nonce |
| UserQueue.UserQueue.ClaimSwaps | src/services/swap/stage.py:44-66 | takes exactly the swaps of its venue that are their free user's oldest, oldest first, up to the limit |
| UserQueue.UserQueue.ClaimEarn | src/services/earn/worker.py:200-233 | of the oldest rows outside busy pools takes one per user with nothing in flight, and none other |
| EarnQueue.BroadcastOnce | src/services/earn/worker.py:94-145 | wherever crashes fall an operation is broadcast at most once, a row queued, taken or waiting still carries its caller's nonce and signature, and completed means its tx landed |
| EarnQueue.NeverReplayed | src/services/earn/vault_service.py:1391-1412 | once recorded as pending a row never goes back to the queue |
| EarnWorker.EarnWorker.Settle | src/services/earn/worker.py:148-198 | a receipt settles one row and leaves the others |
| EarnWorker.EarnWorker.RecoverRow | src/services/earn/worker.py:115-141 | settled from its receipt, failed if its broadcast is unknown, queued again if nothing went out |
| EarnWorker.EarnWorker.Recover | src/services/earn/worker.py:94-145 | nothing is left executing; it reports exactly whether a broadcast is unsettled |
| EarnWorker.EarnWorker.Release | src/services/earn/worker.py:283-327 | waiting withdrawals go back only within the pool account's capacity, but for those larger than the pool |
| EarnWorker.EarnWorker.Execute | src/services/earn/vault_service.py:744-802 | recorded as pending before the broadcast; the other rows are left alone |
| EarnWorker.EarnWorker.Submit | src/services/earn/vault_service.py:518-542 | one broadcast at most, then the row is settled or left for recovery |
| EarnWorker.EarnWorker.RunOnce | src/services/earn/worker.py:235-268 | nothing is broadcast while another row is unsettled |
| DeployReclaim.FundedIff | src/services/earn/vault_service.py:170-182 | so over every run, restarts included, it is covered throughout if and only if every payout is within that |
| DeployReclaim.AlwaysFunded | src/services/earn/vault_service.py:1050-1053 | it is in every run in which no hold is dropped while its request may still be debited |
| DeployReclaim.HoldLost | src/services/earn/vault_service.py:113-116 | a run in which a restart, or a round that sees nothing in a bridge, drops the hold and a payout then takes what the bridge will |
| DeployReclaim.DeployLeaves | src/services/earn/vault_service.py:1055-1141 | after a deploy and whatever comes in, is asked for, paid or fails meanwhile, the account holds what is owed, the buffer of the decision and the drift since, and a next round moves that drift and the change of the buffer, nothing when both are nil |
| DeployReclaim.ReclaimLeaves | src/services/earn/vault_service.py:1062-1096 | a reclaim leaves just what is waited for, or the strategy empty, and nothing for the next round to move |
| DeployReclaim.NoReclaimAfterDeploy | src/services/earn/vault_service.py:1041-1141 | after a deploy no reclaim follows until something new comes in |
| DeployReclaim.ReclaimStays | src/services/earn/vault_service.py:1062-1096 | after a reclaim bridges take back no more than withdrawals that failed, so nothing while none does |
| DeployReclaim.FailureBridgesBack | src/services/earn/vault_service.py:1062-1133 | a run in which a withdrawal that fails sends back what was reclaimed for it |
| DeployReclaim.VaultPool.Withdraw | src/services/earn/vault_service.py:888-982 | admitted exactly within the account's balance less what is held |
| DeployReclaim.VaultPool.DeployReclaim | src/services/earn/vault_service.py:1014-1141 | reclaims exactly when withdrawals are short and the strategy can pay, leaving what is waited for or the strategy empty; deploys only spare and stranded money above the minimum, leaving bridge and earn account empty and the account at what is owed, the buffer and the drift meanwhile |
| Fees.NetMonotone | src/core/fees.py:1-4 | a larger gross never nets less |
| SlippageFloor.SlippageBpsToFloor | src/services/swap/lifi_pipeline.py:621-632 | None exactly when the expected output's net misses the floor, else the largest slippage whose minimum still nets it |
| SlippageFloor.SlippageFromLeast | src/services/swap/lifi_pipeline.py:629-632 | why: the least gross whose net meets the floor decides both |
| SlippageFloor.ExecutionQuote | src/services/swap/lifi_pipeline.py:449-480 | an accepted quote credits at least the floor for any amount received at or above its minimum |
| MidasSizing.SizeRedeem | src/services/earn/strategies/midas.py:252-270 | covers the target in at most one step; without one it is less than 1 + 10000 / (10000 - fee) base units above the least covering amount, with one less than the step |
| MidasSizing.SmallestIff | src/services/earn/strategies/midas.py:255-263 | it is the least covering amount for every target, as the docstring says, if and only if the fee is zero |
| MidasSizing.NotLeastWithFee | src/services/earn/strategies/midas.py:252-270 | with a fee, a target that one base unit less covers as well |
| MidasSizing.OneStepSuffices | src/services/earn/strategies/midas.py:262-270 | one step past the estimate always covers |
| MidasSizing.EstimateIsTight | src/services/earn/strategies/midas.py:252-270 | how far the estimate sits above the least covering amount |
| MidasSizing.RoundTripIff | src/services/earn/strategies/midas.py:206-224 | USDC to mTBILL rounded up and back is the identity if and only if the price is at most the scale |
| EarnedLedger.EarnedActive | src/services/earn/earned.py:111-192 | the status the ledger deserves and, when ok, active plus realised equal to value less net deposits |
| EarnedLedger.Totals | src/services/earn/earned.py:134-164 | basis less realised gain is deposits less withdrawals, exactly, despite floor division |
| EarnedLedger.BasisBound | src/services/earn/earned.py:153-164 | the integer basis is at least the exact weighted average and, after withdrawals, less than one base unit per withdrawal above it |
| EarnedLedger.StuckReplay | src/services/earn/earned.py:140-164 | a burn that cannot be applied makes the whole history unreadable |
| EarnRates.RateAt | src/services/earn/rate_provider.py:54-70 | the scan finds the rate of the last sample at or before the time |
| EarnRates.SampledComposes | src/services/earn/rate_provider.py:82-94 | sampled growths multiply over a split window, known exactly when the parts are |
| EarnRates.LogGrowthAdds | src/services/earn/rate_provider.py:125-151 | log growth adds up when a window is split at any instant |
| EarnRates.CompoundApy | src/services/earn/rate_provider.py:125-151 | the segment loop equals the second-by-second sum |
| EarnRates.Boundaries | src/services/earn/rate_provider.py:136-143 | its boundaries cut the window where the APY may change |
| EarnRates.ApyAt | src/services/earn/rate_provider.py:154-162 | the APY in force, the first one before the series |
| EarnRates.SplitsIff | src/services/earn/rate_provider.py:165-199 | the resolver's growth of a pool multiplies over every split of every window if and only if the pool is not sampled or its samples agree with its APY history wherever they are |
| EarnValue.ResolverComposesIff | src/services/earn/rate_provider.py:165-199 | so the growth composes for all pools if and only if that holds of each |
| EarnValue.StepPosition | src/services/earn/value_history.py:143-160 | the loop carries each grid point's value to the next and, where the growth composes, equals the direct sum of every flow grown from its own time |
| EarnValue.SumGrows | src/services/earn/value_history.py:147-152 | where the growth composes, flows already in grow as one sum, to which those entering add |
| EarnValue.StepwiseIsDirect | src/services/earn/value_history.py:120-123 | so stepping along any grid gives the direct sum at each point |
| EarnValue.StepwiseIff | src/services/earn/value_history.py:120-123 | and for every history and grid of a pool it does if and only if the pool's growth composes |
| EarnValue.ResolverStepsIff | src/services/earn/rate_provider.py:165-199 | so with the resolver if and only if the pool is not sampled or its samples agree with its APY history wherever they are |
| EarnValue.SteppedDiffers | src/services/earn/value_history.py:143-160 | a sampled pool in which one unit is stepped to two where the direct sum is one |
| EarnValue.EarnValueSeries | src/services/earn/value_history.py:112-175 | per token the clamped values of its positions at every grid point, as stepped, and the direct sums where the growth composes |
| PortfolioReplay.GroupByToken | src/services/portfolio/reconstruction.py:68-83 | exactly the moves of each token, in entry order |
| PortfolioReplay.ReplayToken | src/services/portfolio/reconstruction.py:84-98 | strictly increasing points that read back the running sum at any time |
| PortfolioReplay.ReplayHistory | src/services/portfolio/reconstruction.py:52-98 | so for every token, in any order of entries |
| PortfolioReplay.ReadBack | src/services/portfolio/valuation.py:49-66 | the balance series valuation builds reads, at any time, the sum of the effects up to it |
| PortfolioReplay.LockMovesConserve | src/services/portfolio/reconstruction.py:31-49 | lock moves keep available plus locked |
| PortfolioReplay.ValueAt | src/services/portfolio/valuation.py:60-66 | the bisection reads the step value, extended backward where asked |
| PortfolioReplay.PriceE8At | src/services/earn/value_history.py:217-232 | the scan reads the same as the backward-extended bisection |

## Left out

- EvmBatcher.EvmBatcher.Receipt: two rows with one calldata, nonce and fee would share a hash; a version here names its row, and rows in nonce order never share a nonce.
- A LiFi route that ends in a token other than the swap's two: it parks the swap, and that token is not counted.
- Native-coin gas: conservation and coverage are about a token's own balance.
- The approval before a LiFi swap: its gas refusal is that of the swap tx it precedes.
- A handler that requeues a tx after its swap has moved on: one worker handles a step, and `SwapCase.KeepsInv` proves that such a tx is final.
- The owner key of lane rows: it is the batcher's, shown there by `SubmitTwice`.
- Earn rows of several pools at once: `EarnWorker` releases one pool's, since capacity is kept per pool.
- Yield, fees and slippage of a strategy: its moves are exact in `DeployReclaim`, and a reclaim is one step.
- Transfer rows cancelled unsigned: only withdrawals are, so `Layers.LaneRefines` leaves that act out.
- `syncTotalAssets`, seeding and share minting: on the contract's side, which is not part of this model.
- Floating-point `log` and `exp` and 28-digit decimals: real arithmetic with any logarithm per APY.
- Fiat conversion, `sample_grid`, `value_buckets` and `compose_portfolio`: they only combine the series proved here.
- HTTP routes, authentication, signing, ABI and RPC transport, settings, logging, health reports, samplers and caches.
