# Verified model of the goat relayer's wallet, deposit and voting logic

The relayer bridges bitcoin to a layer-2 chain. This project models the parts of it that move money or
record promises about it, and proves what they guarantee:

- **Coin selection and transaction building** (`Sums`, `TxSize`, `CoinSelection`, `BatchSelection`, `TxBuilder`,
  `TxCreate`, `BuildTheorems`, `Pricing`): which withdrawals are batched, which coins pay for them, what the
  transaction pays at which position, and how the price and size retries end. `SelectionLaws` and `BatchLaws` say what
  sizes, selections and batches come to in numbers, waiting times included.
- **The wallet database** (`Models`, `WalletRows`, `OrderSteps`, `CoinSteps`, `TaskSteps`, `WalletLoops`, `WalletState`): coins,
  orders, withdrawals, inputs, outputs and safebox tasks, changed by transactional steps that happen completely
  or not at all. Each step is a function on the tables; the methods of `Wallet.WalletState` run statement by
  statement and loop by loop and are proved to do exactly that. `OrderLaws` and `RowLaws` say for each step what becomes
  of every row of every table, in terms of the rows alone. `WalletRuns` puts the steps together into runs, and
  `CoinRanks`, `OrderGraph`, `Keys`, `Allocation`, `Reopening`, `AllocationRuns`, `Carriers`, `Guards`, `Rollback`, `Replay`
  and `SafeboxTasks` prove what holds over all of them. `Witnesses` has the small runs that show where a claim fails.
- **Starting an order** (`WalletServer`, `RoundTheorems`, `RoundLaws`, `ServerRuns`): one tick of the wallet, from the tables through
  batch, selection and building back to an order in the tables, who is started and who is kept waiting, what such a
  round comes to, and what holds over all runs of ticks and other steps.
- **Scanning a block** (`Scanner`): a found output reaches the coin table and the deposit table.
- **Merkle trees and inclusion proofs** (`Merkle`, `Spv`): three root computations, one proof generator and two
  verifiers, against one reference tree over an arbitrary hash.
- **The deposit table and its queue** (`Deposit`, `DepositState`).
- **Voting on new blocks** (`Sets`, `BlsVote`, `BlsSession`, `BlsSigner`): ballots, threshold, sessions and submissions.

`dafny verify dfyconfig.toml` checks the whole project.

## What the code does that one might not expect

Each of these is stated by a lemma below.

- A price retry never helps: raising the fee can only end in the dust error (`PriceRetryEndsInDust`), so a
  transaction is only ever returned at the first fee (`ReturnedTransaction`). Whether building a batch succeeds is
  therefore decided by the estimate alone (`BuildIff`).
- When change is too small for an output, it is charged as fee and also stays in the transaction, so the leftover is
  missing from the outputs a second time (`WithdrawalConservation`, `PriceWithLeftover`).
- The size retry recurses forever when no number of inputs fits the size limits (`NoReturnIff`, `OversizedHangs`).
  With limits that leave room for a full batch, no round gets there (`RoundNeverHangs`).
- The wallet closes withdrawals that are dust after the dust error, but a batch never contains one: the loop
  never closes anything (`NothingToClose`, `Launch`).
- A coin can be promised to two live orders: a closed order is opened again after its coins were given to another one
  (`ReopenPromisesTwice`), or an order comes in a message whose inputs a live order holds (`MessagesPromiseTwice`).
  `AllocationIff` says for every step exactly when this happens. On the node's own steps it never does
  (`NodeAllocatesOnce`).
- In the same way two orders can pay one withdrawal: a closed order is reopened beside the one that took its
  withdrawal (`ReopeningPaysTwice`). The proposer's check that a withdrawal waits does not always help, because a
  withdrawal can wait although a reopened order pays it; the next order then pays it again (`WaitingPaidTwice`). The
  check is enough exactly as long as no waiting withdrawal is paid (`StatusGuardIff`), which the node's own steps
  keep (`NodePaysOnce`).
- Confirming an order writes its status into safebox tasks and can revive a cancelled task beside its successor
  (`ConfirmRevivesCancelled`). `ConfirmKeepsTasksIff` and `PendingKeepsTasksIff` say exactly when it does not.
- `CleanProcessingWithdraw` closes one order per call, although its comment says all. Nothing aggregates afterwards
  exactly when at most one order did before (`CleanClosesAllIff`, `CleaningLeavesOne`).
- The raw proof check accepts every 32-byte proof and panics on an empty one (`VerifyRawProof`).
- The comment in the tick speaks of 150 and 50 withdrawals; the code starts 32 at once, 10 after ten minutes and any
  number after twenty (`StartsInTime`, `NobodyStarves`).
- The deposit table's signing queue is always empty, because no step writes the statuses it is loaded from
  (`ReachableAgrees`).

## Model

| member | source | states |
|---|---|---|
| TxSize.TransactionSizeEstimateV2 | internal/types/utxo.go:289-367 | the estimated virtual size is the base size plus a quarter of the witness size, with the witness header counted once when any input has a witness |
| SelectionLaws.OneMoreInput | internal/types/utxo.go:294-341 | what each kind of input adds to the estimate, in bytes and in units of witness, the first witness input two more |
| SelectionLaws.OneMoreReceiver | internal/types/utxo.go:343-367 | what each kind of receiver adds, and 31 bytes for every output without one |
| CoinSelection.SelectOptimalUTXOs | internal/wallet/withdraw_strategy.go:235-374 | the slice is only permuted; the result is an optimal core plus the smallest coin worth its own fee; success exactly when together they cover withdrawal and external amount; change and fee follow from the dust bound |
| CoinSelection.SelectCore | internal/wallet/withdraw_strategy.go:253-318 | single coin, neighbouring pair and descending greedy phases together give an optimal core |
| CoinSelection.FindSingle | internal/wallet/withdraw_strategy.go:260-273 | the first coin that covers alone is the smallest such coin, or none covers |
| CoinSelection.FindPair | internal/wallet/withdraw_strategy.go:275-290 | the first covering pair of neighbours has the smallest possible larger coin, or no two coins cover |
| CoinSelection.AccumulateLargest | internal/wallet/withdraw_strategy.go:292-318 | taking the largest coins first covers with the fewest inputs, within the input limit |
| CoinSelection.FindSmallest | internal/wallet/withdraw_strategy.go:320-354 | the swept coin is the smallest unselected coin worth more than its fee |
| CoinSelection.PriceSelection | internal/wallet/withdraw_strategy.go:356-374 | fee, change and witness size of a selection, or the shortage with the estimated fee |
| CoinSelection.SelectionIsOptimal | internal/wallet/withdraw_strategy.go:253-359 | if any selection within the limit covers a positive requirement, selection succeeds, and its core is no larger than any covering set at all |
| CoinSelection.SelectionIsDistinct | internal/wallet/withdraw_strategy.go:235-374 | from rows with distinct outpoints no outpoint is selected twice and nothing is invented |
| SelectionLaws.CoreInNumbers | internal/wallet/withdraw_strategy.go:239-318 | at most 10 inputs, or 50 above 50 bitcoin; whatever so many coins of the pool can pay is paid, with no more coins than any of these choices |
| SelectionLaws.FewCoinsInNumbers | internal/wallet/withdraw_strategy.go:259-290 | a single input is the smallest coin that pays alone; the larger of two inputs is as small as in any pair that pays |
| SelectionLaws.SweepInNumbers | internal/wallet/withdraw_strategy.go:320-354 | one more coin is swept, the smallest unselected one worth more than 327 times the fee rate, exactly when that coin is below half a bitcoin |
| SelectionLaws.PriceInNumbers | internal/wallet/withdraw_strategy.go:356-374 | change above 93 times the rate is an output of the estimate, other change is added to the fee and reported as zero |
| CoinSelection.ConsolidateUTXOsByCount | internal/wallet/withdraw_strategy.go:171-214 | each error exactly under its condition, whatever the input limit; otherwise the coins the scan takes, and the amount left after the fee |
| CoinSelection.TakeSmall | internal/wallet/withdraw_strategy.go:179-192 | the scan takes the small coins of standard single-key types in order, up to the input limit; with a limit below one it still looks at the first coin of such a type |
| RoundLaws.MergedInNumbers | internal/wallet/withdraw.go:22-24 | a round merges at most 200 coins, and below that all coins under half a bitcoin of the standard single-key types |
| BatchSelection.SelectWithdrawals | internal/wallet/withdraw_strategy.go:391-471 | the batch belongs to the first ready fee band: the oldest members up to the output limit, their exact sum, the band's price; every higher band is unready; no batch only if no band is ready; UnreadyInNumbers and ReadyInNumbers say what ready means |
| BatchSelection.GroupByBand | internal/wallet/withdraw_strategy.go:402-423 | every withdrawal is in the best band it can pay unless it is dust there, with its multiplicity |
| BatchSelection.ApplyGroup | internal/wallet/withdraw_strategy.go:427-447 | a group is sorted by age and cut to its oldest members |
| BatchSelection.FirstReady | internal/wallet/withdraw_strategy.go:449-471 | bands are tried from fast to slow and the first ready one is taken |
| BatchSelection.BatchMembersPay | internal/wallet/withdraw_strategy.go:403-447 | every chosen withdrawal accepts the batch price and exceeds dust at that price |
| BatchSelection.NoOlderLeftOut | internal/wallet/withdraw_strategy.go:427-447 | a member left out of a batch is not older than any chosen one, and the batch is full |
| BatchLaws.UnreadyInNumbers | internal/wallet/withdraw_strategy.go:403-452 | in a band that is not started nobody has waited past the second waiting time, nobody past the first if there are a third as many members as start at once, and there are fewer members than that, up to the second in which ages are compared |
| BatchLaws.ReadyInNumbers | internal/wallet/withdraw_strategy.go:403-471 | a batch that is started has as many members as its band up to the output limit, each accepting the price and above dust at it; it is large, or large enough for its age, or old; nobody of a higher band is overdue |
| BatchLaws.NoEarlyBatch | internal/wallet/withdraw_strategy.go:449-452 | without a member past the first waiting time a batch needs as many members as start at once |
| TxCreate.AddTransactionInputs | internal/wallet/withdraw_strategy.go:506-522 | one input for each coin in order, or the error for an unreadable transaction id |
| TxCreate.AddWithdrawOutputs | internal/wallet/withdraw_strategy.go:544-582 | each withdrawal is paid its amount less the fee, in order, or the first failure; the withdrawal's fee field is written |
| TxCreate.AddTransactionOutputs | internal/wallet/withdraw_strategy.go:544-624 | withdrawal, task and change outputs in this order, or the first error; OutputPositions says at which position each of them is |
| TxCreate.CreateTransaction | internal/wallet/withdraw_strategy.go:706-740 | one attempt: inputs, fees, outputs, size check, price check |
| TxCreate.ValidateTransaction | internal/wallet/withdraw_strategy.go:627-662 | size limits first, then the first withdrawal that refuses the effective price |
| TxCreate.CreateRawTransaction | internal/wallet/withdraw_strategy.go:696-703 | attempts and retries on the mutable parameters give what the retry recursion gives; inputs are only dropped from the end, and the inputs of the result are those left |
| TxCreate.HandleTransactionError | internal/wallet/withdraw_strategy.go:665-677 | price and size errors are retried, other errors are returned |
| TxCreate.HandleTxPriceError | internal/wallet/withdraw_strategy.go:680-684 | the retry raises the fee by a tenth |
| TxCreate.HandleTxSizeError | internal/wallet/withdraw_strategy.go:687-693 | the retry drops the last input, and never returns with a single input left |
| TxBuilder.RaiseDropsFuel | internal/wallet/withdraw_strategy.go:680-703 | price retries terminate: each one lowers a bound given by the dust limit of the first output |
| BuildTheorems.PriceRetryEndsInDust | internal/wallet/withdraw_strategy.go:563-703 | a started price retry always ends in the dust error |
| BuildTheorems.ReturnedTransaction | internal/wallet/withdraw_strategy.go:665-703 | a returned transaction was built at the original fee from a prefix of the inputs, all of them unless the size limit was hit |
| BuildTheorems.ReturnedPrice | internal/wallet/withdraw_strategy.go:647-703 | its effective price is at most every withdrawal's price |
| BuildTheorems.WithdrawOutputsPay | internal/wallet/withdraw_strategy.go:544-582 | the output at a withdrawal's position pays its address its amount less the fee, above dust |
| BuildTheorems.OutputPositions | internal/wallet/withdraw_strategy.go:525-624 | in a returned transaction the withdrawals are paid first, each its amount less the rounded-up share of the fee; then the tasks, each exactly its amount to its timelock address; one more output follows exactly when change is left after the fee, and pays the change address that much, above dust |
| BuildTheorems.InputPositions | internal/wallet/withdraw_strategy.go:506-522 | its inputs are the chosen coins in turn, as many as were kept |
| BuildTheorems.FirstObstacle | internal/wallet/withdraw_strategy.go:506-624 | which error building ends in: an unreadable coin id first, then the first withdrawal that cannot be paid, for its address or for dust, then a task's address, then the change |
| BuildTheorems.SharedFeeBounds | internal/wallet/withdraw_strategy.go:525-541 | the fee per output times the outputs covers the estimate by less than one satoshi per output |
| BuildTheorems.WithdrawalConservation | internal/wallet/withdraw_strategy.go:525-740 | inputs equal outputs plus n times the fee plus the leftover that got no change output; the inputs are the chosen coins unless some were dropped for size |
| BuildTheorems.NoReturnIff | internal/wallet/withdraw_strategy.go:687-703 | building does not return exactly when ids and outputs are readable and no number of inputs that the size retry reaches gives an allowed size |
| BuildTheorems.OversizedHangs | internal/wallet/withdraw_strategy.go:687-693 | an input that does not return: enough outputs on a single coin |
| BuildTheorems.BlindBuild | internal/wallet/withdraw_strategy.go:544-703 | building never reads the fees it writes into withdrawals |
| BuildTheorems.ConsolidationConservation | internal/wallet/withdraw_strategy.go:171-214 | a returned consolidation pays its virtual size, rounded up, times the rate, and nothing else |
| BuildTheorems.SafeboxConservation | internal/wallet/withdraw_strategy.go:525-624 | a returned safebox transaction takes its fee from the change, and keeps all change as fee when it is too small |
| Pricing.SerializedSize | internal/types/utxo.go:289-367 | for standard scripts the serialised size is the estimate's base size less what legacy inputs were estimated at |
| Pricing.ExcessZeroIffWitness | internal/types/utxo.go:297-325 | the estimate counts no legacy bytes exactly when every input is spent through its witness |
| Pricing.PriceWithChange | internal/wallet/withdraw_strategy.go:647-662 | with change, the effective price is exactly the network fee for witness inputs, and above it as soon as one input is legacy |
| Pricing.PriceInGeneral | internal/wallet/withdraw_strategy.go:647-662 | whatever the inputs, the price spreads the estimated fee and the leftover over the estimated size less the legacy excess |
| Pricing.PriceWithLeftover | internal/wallet/withdraw_strategy.go:361-371 | for witness inputs the price is the network fee plus the leftover per virtual byte |
| Pricing.NoPriceRetry | internal/wallet/withdraw_strategy.go:403-703 | a batch paid by witness inputs with change is built in one attempt when the limits leave room for it |
| Pricing.NobodyRefuses | internal/wallet/withdraw_strategy.go:403-662 | no member of a batch refuses the price when the batch is paid by witness inputs with change |
| Pricing.PriceRetryIff | internal/wallet/withdraw_strategy.go:647-662 | a choice within the size limits starts a price retry exactly when every output stays above dust and, for some member, the fee for the estimated size and the leftover exceed what it pays for that size less the legacy excess |
| Pricing.BuildIff | internal/wallet/withdraw_strategy.go:627-703 | building a choice within the limits returns the transaction on all its coins when no output is dust and no member refuses, by the estimate, and ends in the dust error otherwise |
| Pricing.ChangeIsNeverDust | internal/wallet/withdraw_strategy.go:361-371 | for a batch paid by a selection the change-dust error never occurs, retries included |
| Pricing.SmallKeepsInputs | internal/wallet/withdraw_strategy.go:627-703 | with limits of at most 60 and at least 3520 bytes, or 8241 for a consolidation, building parameters within the relayer's batch limits always returns, and a returned transaction has all inputs |
| Wallet.WalletState.CreateWithdrawal | internal/state/withdraw.go:43-73 | a new request id adds a waiting withdrawal, a known one changes nothing |
| Wallet.WalletState.UpdateWithdrawReplace | internal/state/withdraw.go:282-302 | the price changes only while the withdrawal waits or aggregates; an unknown id is an error |
| Wallet.WalletState.UpdateWithdrawCanceling | internal/state/withdraw.go:305-325 | the same guard for cancelling |
| Wallet.WalletState.UpdateWithdrawCanceled | internal/state/withdraw.go:328-346 | closes a known withdrawal, ignores an unknown one |
| Wallet.WalletState.CloseWithdrawByRequestId | internal/state/withdraw.go:905-915 | the same with a given reason |
| Wallet.WalletState.CreateSendOrder | internal/state/withdraw.go:76-200 | all-or-nothing: order, inputs and outputs are added, coins marked pending, tasks or withdrawals taken; the first obstacle is the error |
| Wallet.WalletState.RecoverSendOrder | internal/state/withdraw.go:203-280 | ignored when an open order with the transaction exists; otherwise the order is added, coins that are free are marked and waiting withdrawals initialised |
| Wallet.WalletState.UpdateSendOrderInitlized | internal/state/withdraw.go:350-379 | the newest order of a transaction becomes init with its rows unless it is final |
| Wallet.WalletState.UpdateSendOrderPending | internal/state/withdraw.go:383-470 | the newest order becomes pending with its rows; an unknown order is rebuilt from the message or rejected |
| Wallet.WalletState.InsertRecovered | internal/state/withdraw.go:392-451 | rebuilding checks arguments, id, coins and withdrawals in this order |
| Wallet.WalletState.UpdateSendOrderConfirmed | internal/state/withdraw.go:474-532 | the newest order is confirmed at a block and its coins are spent in it; without an order the rows of the transaction id are updated; ConfirmLaw and ConfirmWithoutOrder say so row by row |
| Wallet.WalletState.UpdateWithdrawInitialized | internal/state/withdraw.go:534-594 | the orders of a transaction from newest to oldest: the newest is opened with its coins, the others are closed |
| Wallet.WalletState.UpdateWithdrawFinalized | internal/state/withdraw.go:596-653 | withdrawals of all orders are processed, open orders are processed and their coins spent, then the rows of the transaction id |
| Wallet.WalletState.CleanProcessingWithdrawByOrderId | internal/state/withdraw.go:655-717 | an aggregating order is closed and gives back what it reserved |
| Wallet.WalletState.CleanProcessingWithdraw | internal/state/withdraw.go:720-798 | only the first aggregating order is closed; without one, stray rows are reset |
| OrderLaws.WithdrawLaw | internal/state/withdraw.go:43-346 | a new withdrawal waits with its amount, price and receiver; price and cancelling change it only while it waits or aggregates; closing writes the reason; nothing else changes |
| OrderLaws.CreateIff | internal/state/withdraw.go:76-200 | an order is saved exactly under a fresh id, with inputs and outputs, on different coins that can be spent, and for tasks or withdrawals that are free, or, for a voter, taken |
| OrderLaws.CreateLaw | internal/state/withdraw.go:76-200 | then it is listed last, exactly its coins become pending, its withdrawals aggregate or its tasks are initialised under its id and transaction, and every other row stays |
| OrderLaws.RecoverLaw | internal/state/withdraw.go:203-280 | when a recovered order is added, and what becomes of each withdrawal and coin |
| OrderLaws.InitlizedLaw | internal/state/withdraw.go:350-379 | the newest order and its inputs and outputs become init, every other row stays |
| OrderLaws.PendingLaw | internal/state/withdraw.go:383-470 | the newest order becomes pending with its withdrawals, tasks, inputs and outputs, every other row and all coins stay |
| OrderLaws.RebuildIff | internal/state/withdraw.go:392-451 | from which messages an unknown order is rebuilt |
| OrderLaws.RebuildLaw | internal/state/withdraw.go:392-470 | a rebuilt order is pending unless it comes with a final status, and exactly the coins it names become pending |
| OrderLaws.ConfirmLaw | internal/state/withdraw.go:474-532 | a confirmed order records its block; those of its coins that were not spent are spent in that block, spent ones keep theirs; its withdrawals, tasks, inputs and outputs are confirmed; every other row stays; it fails exactly when one of its coins is unknown, and a final order is left alone |
| OrderLaws.ConfirmWithoutOrder | internal/state/withdraw.go:474-532 | without an order the rows of the transaction id become processed if one of its withdrawals is, confirmed otherwise |
| OrderLaws.InitializePass | internal/state/withdraw.go:548-589 | what becomes of one aggregating or closed order with its inputs and outputs, and when it fails |
| OrderLaws.InitializeLoop | internal/state/withdraw.go:534-594 | each aggregating or closed order of the transaction takes the process id; the last one inserted of all becomes init, the others closed |
| OrderLaws.FinalizePass | internal/state/withdraw.go:610-644 | one order's withdrawals are processed; from init, pending or confirmed so is the order, and its unspent coins are spent in the block it recorded |
| OrderLaws.FinalizeLoop | internal/state/withdraw.go:596-653 | each order of the transaction that is init, pending or confirmed becomes processed with the process id |
| OrderLaws.FinalizeLaw | internal/state/withdraw.go:596-653 | after that the rows of the transaction id are processed; without an order nothing happens |
| OrderLaws.CleanLaw | internal/state/withdraw.go:720-798 | the first aggregating order in order of insertion is closed; its pending coins are processed again, its aggregating withdrawals and initialised tasks wait again, and every other row stays |
| OrderLaws.StrayLaw | internal/state/withdraw.go:720-798 | when no order aggregates, all aggregating withdrawals wait again, and inputs and outputs that wait or aggregate are closed |
| WalletLoops.MarkCoins | internal/state/withdraw.go:94-111 | marking coins one by one succeeds exactly for distinct spendable coins, and then marks them all |
| WalletLoops.MarkTasks | internal/state/withdraw.go:113-153 | taking tasks succeeds exactly when each may be taken, and then takes them all |
| WalletLoops.MarkWithdraws | internal/state/withdraw.go:155-195 | the same for withdrawals |
| WalletLoops.RecoverWithdrawRows | internal/state/withdraw.go:220-238 | waiting withdrawals of a recovered order are initialised, others skipped |
| WalletLoops.RecoverCoins | internal/state/withdraw.go:240-261 | free coins are marked once and give their inputs their receiver type |
| WalletLoops.InitWithdraws | internal/state/withdraw.go:427-443 | the withdrawals of a rebuilt order must all be waiting |
| WalletLoops.SpendVins | internal/state/wallet.go:434-451 | the coins of an order are spent, or one of them is missing |
| WalletLoops.HoldVins | internal/state/wallet.go:453-468 | the coins of an order are marked, spent ones stay spent, or one is missing |
| WalletLoops.ReleaseVins | internal/state/withdraw.go:683-696 | pending coins of an order go back to processed, missing ones are skipped |
| WalletLoops.InitializeRow | internal/state/withdraw.go:548-589 | one order of UpdateWithdrawInitialized |
| WalletLoops.FinalizeRow | internal/state/withdraw.go:610-644 | one order of UpdateWithdrawFinalized |
| Wallet.WalletState.UpdateUtxoStatusProcessed | internal/state/wallet.go:28-45 | a coin becomes processed unless it is missing, pending or spent |
| Wallet.WalletState.UpdateUtxoStatusSpent | internal/state/wallet.go:47-52 | a known coin becomes spent, keeping its first spending block |
| Wallet.WalletState.UpdateUtxoStatusSpentByVins | internal/state/wallet.go:54-73 | known coins of a list are spent, unknown ones ignored |
| Wallet.WalletState.AddUtxo | internal/state/wallet.go:75-127 | a found output keeps a known status and is processed at once when its deposit is known; a new confirmed deposit is saved to the deposit table exactly when its size is valid, and of another size leaves both tables alone |
| Wallet.WalletState.UpdateUtxoSubScript | internal/state/wallet.go:129-153 | the script is set and the fetch flag cleared, or an error changes nothing |
| Wallet.WalletState.AddDepositResult | internal/state/wallet.go:168-218 | an unconfirmed or confirmed coin becomes processed and the result is recorded with its fetch flag |
| RowLaws.SetCoinLaw | internal/state/wallet.go:28-52 | from which statuses a coin becomes processed or spent, and in which block |
| RowLaws.FoundLaw | internal/state/wallet.go:75-127 | which row a found output leaves, for each status, deposit and size, and when it is also a deposit |
| RowLaws.DepositLaw | internal/state/wallet.go:168-218 | the result of a deposit is recorded once and asks for a script exactly when its coin is unknown or a script coin without one |
| Wallet.WalletState.CreateSafeboxTask | internal/state/deposit.go:202-230 | a task is added unless its address has an unfinished one |
| Wallet.WalletState.UpdateSafeboxTaskCancelled | internal/state/deposit.go:181-199 | an unfinished task is closed |
| Wallet.WalletState.UpdateSafeboxTaskCompleted | internal/state/deposit.go:232-249 | a processed task is completed |
| Wallet.WalletState.UpdateSafeboxTaskProcessed | internal/state/deposit.go:251-324 | a confirmed or acknowledged task is processed together with the orders of its transaction |
| Wallet.WalletState.UpdateSafeboxTaskInitOK | internal/state/deposit.go:326-373 | a task is acknowledged and the newest order of its transaction becomes init unless final |
| Wallet.WalletState.UpdateSafeboxTaskInit | internal/state/deposit.go:375-397 | the first unfinished task of a timelock address is initialised |
| Wallet.WalletState.UpdateSafeboxTaskReceivedOK | internal/state/deposit.go:400-422 | a task records its confirmed funding |
| Wallet.WalletState.UpdateSafeboxTaskReceived | internal/state/deposit.go:424-473 | a waiting task takes a deposit of its exact amount, and is closed by one after its deadline |
| Wallet.WalletState.RevertSafeboxTaskToReceivedOKByTimelockTxid | internal/state/safebox.go:19-36 | the first initialised task of a transaction waits again |
| RowLaws.FundingLaw | internal/state/deposit.go:424-473 | a deposit of the exact amount at or before the deadline funds the waiting task of its address, a later one closes it whatever its amount, and every other deposit is ignored |
| RowLaws.NewTaskLaw | internal/state/deposit.go:202-230 | a task is added, waiting, exactly when no unfinished task has its address and its id is new |
| RowLaws.TaskLaw | internal/state/deposit.go:181-422 | from which statuses a task is closed, completed or funded, and with which fields |
| RowLaws.TimelockLaw | internal/state/deposit.go:375-397 | the first unfinished task of a timelock address takes its transaction; the first initialised task of a transaction waits again |
| RowLaws.AcknowledgeLaw | internal/state/deposit.go:326-373 | an acknowledged task takes its transaction; without an order of that transaction nothing else changes |
| CoinRanks.CoinLifeCycle | internal/state/wallet.go:28-218 | every step keeps or raises every coin's rank, except that cleaning returns pending coins of the closed order to processed |
| CoinRanks.SpentForever | internal/state/wallet.go:434-451 | a spent coin stays spent over every run, recovery included |
| CoinRanks.SpentBlockForever | internal/state/wallet.go:434-451 | over every run the block of a spent coin stays on record with its amount and receiver type, until the scanner finds the coin again |
| CoinRanks.ConfirmedBlockStays | internal/state/withdraw.go:474-532 | so the block with which an order was confirmed stays with the coins it spent |
| OrderGraph.OrderStep | internal/state/withdraw.go:350-717 | each step moves each order along at most one edge of the status graph; only UpdateWithdrawInitialized reopens |
| OrderGraph.SettledOrders | internal/state/withdraw.go:474-653 | over every run a confirmed order only becomes processed and a processed one never changes |
| OrderGraph.ClosedOrders | internal/state/withdraw.go:534-594 | without UpdateWithdrawInitialized a closed order stays closed |
| OrderGraph.NoneAggregating | internal/state/withdraw.go:534-594 | in every reachable state UpdateWithdrawInitialized leaves no order of the transaction aggregating |
| AllocationRuns.AllocationIff | internal/state/withdraw.go:76-717 | every step keeps "no outpoint is an input of two live orders, inputs of live orders are held, inputs of confirmed and processed orders are spent" exactly when it is harmless: always, except that the inputs of an added order must fit and no coin of a reopened order may have been taken |
| AllocationRuns.NeverDoublyAllocated | internal/state/withdraw.go:76-717 | over every run from the empty tables, all states keep it exactly when each step is harmless |
| AllocationRuns.NodeAllocatesOnce | internal/state/withdraw.go:76-717 | over every run of the node's own steps (orders as the wallet builds them, messages about known orders, clean-ups, scanner and task steps, no closed order reopened) no output is ever promised to two transactions |
| AllocationRuns.RecoverKeepsIff | internal/state/withdraw.go:203-280 | a recovered order with its own inputs keeps it exactly when its outpoints are known, different and no inputs of live orders |
| AllocationRuns.PendingKeepsIff | internal/state/withdraw.go:383-470 | an order rebuilt from a pending message keeps it exactly when its outpoints are known, different, no inputs of live orders, and each among the coins the message names or held already |
| AllocationRuns.CreateKeepsIff | internal/state/withdraw.go:76-200 | a saved order with its own inputs, a voter's included, whose coins and inputs are separate lists, keeps it exactly under the same condition |
| AllocationRuns.MessagesPromiseTwice | internal/state/withdraw.go:76-451 | one run of withdrawal orders after which recovering an order, rebuilding one and saving a voter's order each promise a held coin again |
| Allocation.CreateKeeps | internal/state/withdraw.go:76-200 | an order on its selected coins keeps the allocation invariant |
| Allocation.CloseKeeps | internal/state/withdraw.go:655-717 | closing releases no coin that a live order needs |
| Reopening.ReopenIff | internal/state/withdraw.go:548-589 | reopening a closed order keeps the allocation invariant exactly when no other order that stays live has taken one of its coins |
| Reopening.ReopenPromisesTwice | internal/state/withdraw.go:548-589 | a run of two orders of one proposer, the first cleaned up, after which reopening it leaves one coin promised to both |
| Carriers.PaymentIff | internal/state/withdraw.go:76-717 | every step keeps each withdrawal paid by at most one output of orders that are not closed exactly when it adds no order, and reopens none, that pays a withdrawal such an order pays |
| Carriers.NeverPaidTwice | internal/state/withdraw.go:76-717 | the same over every run from the empty tables |
| Guards.StatusGuardIff | internal/state/withdraw.go:155-195 | the proposer's check that a withdrawal waits keeps every withdrawal paid once exactly when no waiting withdrawal is paid by an order that is not closed |
| Guards.NodePaysOnce | internal/state/withdraw.go:76-798 | over every run of the node's own steps no withdrawal is paid by two orders that are not closed, and a paid withdrawal never waits: if it aggregates, it does so for its order |
| Guards.WaitingPaidTwice | internal/state/withdraw.go:155-594 | a run after which nothing is paid twice, but a withdrawal waits though a reopened order pays it, and the proposer's next order pays it again |
| Carriers.ReopeningPaysTwice | internal/state/withdraw.go:534-594 | a run of two orders of one proposer, the first cleaned up, after which reopening it leaves both paying one withdrawal |
| Keys.KeyedStep | internal/state/withdraw.go:43-798 | each step keeps coins, withdrawals and tasks under their own keys, the task list complete, and the order ids in withdrawals and tasks those of known orders |
| Keys.ReachableKeyed | internal/state/withdraw.go:43-798 | every reachable database has this form |
| Rollback.CreateTakesCoins | internal/state/withdraw.go:94-111 | a saved order's coins were distinct and spendable, and leave the spendable set exactly |
| Rollback.RollbackById | internal/state/withdraw.go:655-717 | cleaning a proposer's new order restores the spendable set and every withdrawal and task status |
| Rollback.RollbackByCleaning | internal/state/withdraw.go:720-798 | so does the general clean-up when no other order aggregates |
| Rollback.CleanClosesAllIff | internal/state/withdraw.go:720-798 | after a clean-up no order aggregates exactly when at most one did before |
| Rollback.CleaningLeavesOne | internal/state/withdraw.go:720-798 | a run with two aggregating orders, a voter's copies of two proposals, of which the clean-up closes the first |
| Replay.ReplayIsIdempotent | internal/state/withdraw.go:203-280 | creating a withdrawal, recovering an order, initialising, finalising and recording a deposit result twice in a row equals once, errors included |
| Replay.InitializeTwice | internal/state/withdraw.go:534-594 | a second UpdateWithdrawInitialized changes nothing |
| Replay.FinalizeTwice | internal/state/withdraw.go:596-653 | a second UpdateWithdrawFinalized changes nothing |
| SafeboxTasks.TaskExclusivityStep | internal/state/deposit.go:181-473 | each step but a pending or confirmed order keeps at most one unfinished task per address, keeps addresses, and keeps finished tasks finished |
| SafeboxTasks.TaskExclusivity | internal/state/deposit.go:181-473 | over every run whose steps overwrite no finished task, all of this holds |
| SafeboxTasks.ExclusiveRunsIff | internal/state/deposit.go:181-473 | over every run from the empty tables, no address ever has two unfinished tasks exactly when no step revives a finished task that has a rival at its address |
| SafeboxTasks.ConfirmKeepsTasksIff | internal/state/withdraw.go:474-532 | confirming keeps finished tasks finished exactly when it overwrites none of them, and one unfinished task per address exactly when none it overwrites has a rival |
| SafeboxTasks.PendingKeepsTasksIff | internal/state/withdraw.go:383-470 | marking an order pending, known or rebuilt, keeps finished tasks finished exactly when it overwrites none of them, and one unfinished task per address exactly when none it overwrites has a rival |
| SafeboxTasks.ConfirmRevivesCancelled | internal/state/withdraw.go:474-532 | a run in which a task is ordered, cancelled and replaced; confirming the order then leaves two unfinished tasks at one address |
| WalletServer.GetUtxoCanSpend | internal/state/wallet.go:325-338 | exactly the spendable coins, each once, by descending amount |
| WalletServer.GetWithdrawsCanStart | internal/state/withdraw.go:800-813 | exactly the waiting withdrawals, each once, by descending price |
| WalletServer.GetSafeboxTasks | internal/state/safebox.go:62-72 | exactly those safebox tasks that wait for their transaction, each once, the last inserted first |
| WalletServer.EarliestTask | internal/wallet/withdraw_strategy.go:480-498 | the chosen task has the earliest deadline and may be taken |
| WalletServer.BuildOrder | internal/wallet/withdraw.go:409-500 | one input row for each transaction input with the receiver type of the coin chosen for it, one output row for each output with the withdrawal it pays and the address of its script |
| WalletServer.ChooseCoins | internal/wallet/withdraw.go:349-354 | an optimal selection of free coins that covers the demand, or the shortage |
| WalletServer.CloseDustWithdrawals | internal/wallet/withdraw.go:374-386 | closes exactly the withdrawals of a list that are dust at the price |
| WalletServer.NothingToClose | internal/wallet/withdraw.go:374-386 | which are none, for withdrawals above dust as all batch members are |
| WalletServer.WalletServer.SaveOrder | internal/wallet/withdraw.go:549-556 | an order on free coins is saved unless its id is taken |
| WalletServer.WalletServer.Launch | internal/wallet/withdraw.go:355-395 | the round ends as building the choice ends; it either creates an order whose coins are the transaction's inputs and whose withdrawals are paid in turn, or leaves the tables alone, also after the dust error |
| WalletServer.WalletServer.StartDemand | internal/wallet/withdraw.go:349-395 | what is to be paid is paid from an optimal selection of the spendable coins at the given price, or the shortage is reported |
| WalletServer.WalletServer.StartConsolidation | internal/wallet/withdraw.go:241-282 | the first small coins are merged when that leaves anything above the fee; otherwise the error of the first condition that fails |
| WalletServer.WalletServer.StartSafebox | internal/wallet/withdraw.go:283-327 | the safebox task with the earliest deadline is paid, with external funds required on top |
| WalletServer.WalletServer.StartWithdrawals | internal/wallet/withdraw.go:328-395 | the batch of the first ready band is paid at its price, or no band is ready, or the network fee is too high |
| WalletServer.WalletServer.InitWithdrawSig | internal/wallet/withdraw.go:142-407 | a tick starts exactly when this node proposes, both chains are in sync, the fee is known and not too high, five blocks have passed since the epoch and since the last signature, and no signature is in progress: it then cleans up and starts at most one order, and signs exactly while one runs; a node that lost the role while signing cleans up; any other tick changes nothing |
| WalletServer.TickStartsIff | internal/wallet/withdraw.go:142-200 | the same conditions for every tick of a run, with the clean-up of a node that stepped down |
| WalletServer.TickAddsIff | internal/wallet/withdraw.go:142-407 | a tick lists at most the order under its own id, and only on a node that proposes and signs nothing |
| WalletServer.RoundRows | internal/wallet/withdraw.go:409-500 | the rows that a round adds: an input for each input of the transaction on a coin that becomes pending, an output for each output with its amount, position and receiver, the leading ones naming the withdrawals they pay |
| WalletServer.WalletServer.Start | internal/wallet/withdraw.go:226-396 | which branch a round takes and how it ends: consolidation with at least 150 spendable coins and no order in progress, else a waiting safebox task, else waiting withdrawals |
| WalletServer.RoundKeepsAllocation | internal/wallet/withdraw.go:142-407 | a whole round keeps every output promised to at most one transaction |
| RoundTheorems.RoundNeverHangs | internal/wallet/withdraw.go:226-396 | with roomy size limits every round ends, provided no waiting withdrawal or task is to be paid to a script longer than 34 bytes |
| RoundTheorems.DemandPays | internal/wallet/withdraw.go:283-395 | a running order pays its withdrawals and tasks in turn, then at most the change, from coins of the pool |
| RoundTheorems.SafeboxPays | internal/wallet/withdraw.go:283-327 | a running safebox order pays first, and exactly, the task of the earliest deadline, and then at most the change |
| RoundTheorems.SafeboxFunds | internal/wallet/withdraw.go:283-297 | a safebox round is short exactly without coins for the task and 100000 on top |
| RoundTheorems.SafeboxChange | internal/wallet/withdraw.go:294-321 | its change is what the coins exceed the amount by, less the rounded-up fee for two outputs |
| RoundLaws.ConsolidatesFirst | internal/wallet/withdraw.go:241-282 | with 150 coins that can be spent and no order in progress a round consolidates, whatever else waits: it merges such coins below half a bitcoin into one output to the change address |
| RoundLaws.MergePays | internal/wallet/withdraw.go:241-282 | which pays their sum less the rounded virtual size times the half-hour fee |
| RoundLaws.SafeboxGoesSecond | internal/wallet/withdraw.go:283-327 | otherwise a waiting safebox task of the earliest deadline is paid |
| RoundLaws.EndsAtOnce | internal/wallet/withdraw.go:328-342 | otherwise the round ends at once exactly when nobody waits or the fee is too high |
| RoundLaws.NobodyStarves | internal/wallet/withdraw.go:328-347 | when a round finds no batch ready, every waiting withdrawal that could be paid is in a band of fewer than 32, has waited less than 20 minutes, and less than 10 if its band has at least 10 (half of that on the regression network; up to one second) |
| RoundLaws.StartsInTime | internal/wallet/withdraw.go:328-347 | when a round picks a batch, its band has 32 waiting withdrawals, or 10 and one older than 10 minutes, or one older than 20 minutes |
| RoundTheorems.WithdrawalRound | internal/wallet/withdraw.go:328-395 | over standard coins and addresses, a round with a batch and funds runs (or finds its order id taken) exactly when the batch is affordable, on all chosen coins, conserving amounts, at a price every member accepts; otherwise it ends in the dust error; with change and witness inputs it pays exactly the band's fee and only dust can stop it |
| ServerRuns.RoundPaysIff | internal/wallet/withdraw.go:355-395 | a round's order takes waiting withdrawals only; it pays none a second time exactly when none of them is paid already, hence always when no waiting withdrawal is paid |
| ServerRuns.ServerIsSafe | internal/wallet/withdraw.go:142-407 | over every run of ticks and other steps of the node from the empty tables, no output is promised twice, no withdrawal paid twice, and rows carry their keys |
| ServerRuns.TicksOfTheProposer | internal/wallet/withdraw.go:142-200 | on such runs every order that a tick adds was added by a proposer in sync, at a fit fee, after both waits and with no signature in progress |
| ServerRuns.ServerRollsBack | internal/state/withdraw.go:720-798 | on such runs, cleaning an order just saved under a fresh id restores the spendable set and every withdrawal and task status |
| Merkle.ComputeMerkleRoot | internal/types/merkle.go:48-69 | the root of the reference tree, nothing for no leaves |
| Merkle.ComputeMerkleRootAndProof | internal/types/merkle.go:71-100 | the same root, and the proof appended for any integer index |
| Merkle.BuildMerkleRoot | internal/types/utils.go:261-290 | the same root by iteration |
| Merkle.VerifyProof | internal/types/merkle.go:102-118 | accepts exactly when climbing the path ends in the root |
| Merkle.Completeness | internal/types/merkle.go:71-118 | the path of every valid index climbs from its leaf to the root and has the tree's depth |
| Merkle.DepthBounds | internal/types/merkle.go:71-100 | the depth is 0 for one leaf, and otherwise the least d with n at most 2 to the d |
| Merkle.ProofAppendedIsPath | internal/types/merkle.go:71-100 | for a valid index the appended proof is the reference path |
| Merkle.ProofOutside | internal/types/merkle.go:71-100 | for an index beyond the padded leaves it is the path of position 0 one level up |
| Merkle.PathNodes | internal/types/merkle.go:71-100 | each path element is the sibling node on its level of the reference tree |
| Merkle.Soundness | internal/types/merkle.go:102-118 | a path of the tree's depth that verifies starts at the leaf of its index, or two different pairs with one parent can be named |
| Merkle.UniqueProof | internal/types/merkle.go:102-118 | for an injective parent hash exactly the true leaf and path verify |
| Spv.VerifyRawProof | internal/types/merkle.go:121-144 | the verdict on raw bytes, for every length: false, panic, always true, or the climb |
| Spv.RawProofAgrees | internal/types/merkle.go:102-144 | on txid, path and root laid end to end the raw check agrees with the structured one |
| Spv.SmallRoots | internal/types/merkle.go:48-69 | the root of two transactions is the hash of the first before the second, and the last of three is hashed with itself |
| Spv.OneSibling | internal/types/merkle.go:121-144 | a proof with one sibling puts the transaction before it at an even index and after it at an odd one |
| Spv.SplitFlatten | internal/types/utils.go:223-228 | the byte form of a path splits back into the path |
| Spv.GenerateSPVProof | internal/types/utils.go:196-229 | finds the first position of the transaction, names the first unreadable hash, and otherwise returns root and path of the block, which the raw check accepts |
| Spv.ParseHashes | internal/types/utils.go:210-217 | all digests, or the position of the first malformed hash |
| Spv.GeneratedProofVerifies | internal/types/utils.go:196-229 | every generated proof passes the raw check |
| Spv.RawProofSound | internal/types/merkle.go:121-144 | a raw proof of the block's depth that passes is the transaction's own, or a digest collision can be named |
| DepositTable.DepositState.constructor | internal/state/state.go:46-208 | the queues are loaded from the table by status |
| DepositTable.DepositState.AddUnconfirmDeposit | internal/state/deposit.go:25-60 | an unknown output is stored and queued, a known one ignored |
| DepositTable.DepositState.SaveConfirmDeposit | internal/state/deposit.go:66-122 | an output is stored as confirmed unless processed, and leaves the queue |
| Deposit.ArrivalLaw | internal/state/deposit.go:25-60 | a new output is stored unconfirmed and queued with its own fields, without block or proof |
| Deposit.ScannedLaw | internal/state/deposit.go:66-122 | a scanned output is stored as confirmed with amount, block and proof; a known row keeps the rest, a processed one everything |
| Deposit.CommittedLaw | internal/state/deposit.go:128-179 | a committed output becomes processed and the latest, an unknown one is stored with its address |
| Deposit.RestartLaw | internal/state/state.go:46-208 | a restart queues exactly the unconfirmed and confirmed rows by id and takes the last processed row for the latest |
| Scanner.ScanOutput | internal/wallet/btc_blocks.go:220-240 | an output is proved against its block, or skipped; then coin table and deposit table change as for a found output |
| Scanner.ScanKeeps | internal/wallet/btc_blocks.go:220-240 | scanning keeps the allocation invariant, the keys and the agreement of the deposit table |
| Scanner.DepositReachesBoth | internal/state/wallet.go:75-127 | a new deposit of valid size reaches both tables, of another size neither |
| Scanner.NewDepositRow | internal/wallet/btc_blocks.go:220-240 | the deposit row of a new output has its transaction, position and amount, and the place and proof of its block |
| DepositTable.DepositState.UpdateProcessedDeposit | internal/state/deposit.go:128-179 | an output becomes processed, the latest, and leaves both queues |
| DepositTable.DepositState.UpdateConfirmedDepositsByBtcHeight | internal/state/deposit.go:513-542 | queued deposits of a block are confirmed with their proofs, in order, up to the first failure |
| DepositTable.Dequeue | internal/state/deposit.go:110-120 | removes the first entry of an output |
| Deposit.BlockConfirms | internal/state/deposit.go:513-542 | a block confirms exactly the unconfirmed deposits whose transaction it contains, with the proof of that block; a malformed block changes nothing |
| Deposit.MalformedBlock | internal/state/deposit.go:513-542 | an error of the loop leaves nothing half done |
| Deposit.StepAgrees | internal/state/deposit.go:25-179 | each step keeps: outputs are unique, entries are exact copies of different unprocessed rows, every unconfirmed row is queued, every confirmed row's proof verifies |
| Deposit.ReachableAgrees | internal/state/deposit.go:25-179 | the same in every state reached from an empty table, restarts included |
| Deposit.StepAdvances | internal/state/deposit.go:25-179 | rows never vanish, change their output or fall back |
| Deposit.ProcessedForever | internal/state/deposit.go:66-179 | a processed row never changes again over any run |
| Deposit.CommitTwice | internal/state/deposit.go:128-179 | processing a deposit twice equals processing it once |
| BlsVote.Threshold | internal/types/utils.go:422-425 | two thirds, rounded up |
| BlsVote.IndexOfSlice | internal/types/utils.go:413-420 | the first position, or -1 when absent |
| BlsVote.AggregateBallots | internal/bls/handle_block.go:248-322 | the tally of the ballots in some order of the map; TallyIsSigned says what its signature aggregates |
| BlsVote.CollectBallots | internal/bls/handle_block.go:263-283 | the proposer, the bitmap and the signatures that any order of the map gives |
| BlsVote.OneBitPerSignature | internal/bls/handle_block.go:271-281 | every counted signature sets a bit of its own, whatever the voter list |
| BlsVote.TallyIsQuorum | internal/bls/handle_block.go:285-322 | a message carries the signatures of at least two thirds distinct parties, its proposer and the listed voters that sent a ballot, all of them |
| BlsVote.TallyIsSigned | internal/bls/handle_block.go:263-322 | the signature of a message aggregates the ballot signatures of its signers, each once and no other, the proposer's first; epoch and sequence are the current ones |
| BlsVote.TallyIff | internal/bls/handle_block.go:285-322 | a session gets to aggregation exactly when epoch and sequence are current and the threshold is met, and the message repeats the proposer's ballot |
| BlsVote.SignersAreListed | internal/bls/handle_block.go:255-281 | all signers are listed voters exactly when the proposer is |
| BlsVote.QuorumsOverlap | internal/types/utils.go:422-425 | with distinct voters including the proposers, two quorums share at least twice the threshold less n voters, which is a third of them |
| BlsSigner.Signer.HandleSigStartNewBlock | internal/bls/handle_block.go:24-103 | the guards in order, then a session with the proposer's ballot alone, tallied at once |
| BlsSigner.Signer.HandleSigReceiveNewBlock | internal/bls/handle_block.go:105-226 | as proposer collects the first ballot of each voter and tallies, as voter answers acceptable proposals |
| BlsSigner.Signer.CollectVote | internal/bls/handle_block.go:115-157 | the proposer's branch |
| BlsSigner.Signer.AnswerProposal | internal/bls/handle_block.go:158-225 | the voter's branch |
| BlsSigner.Signer.CheckTimeouts | internal/bls/handle.go:12-28 | exactly the expired sessions are removed |
| BlsSigner.Signer.RemoveSigMap | internal/bls/handle.go:115-128 | a session is removed from both maps |
| BlsSession.StepIsValid | internal/bls/handle_block.go:24-157 | each step keeps: one proposer ballot per open session, at most one submission per session, a submitted session is gone, every submission is a quorum |
| BlsSession.ReachableIsValid | internal/bls/handle_block.go:24-157 | the same in every reachable state |
| BlsSession.SubmissionsAreSigned | internal/bls/handle_block.go:248-322 | in every reachable state each submission carries such an aggregate: the proposer's signature and one of each voter on the bitmap, from the ballot that this voter sent for the request |
| BlsSession.SubmitsIff | internal/bls/handle_block.go:115-157 | while aggregation works, a session is submitted exactly when its proposal is current and the proposer with the listed voters heard from are two thirds; it is then gone, and the message proposes what the proposer's ballot does, with exactly those voters on the bitmap |
| BlsSession.OpensIff | internal/bls/handle_block.go:24-103 | when the proposer opens a session, with which ballot and deadline |
| BlsSession.CollectsFirstBallot | internal/bls/handle_block.go:115-157 | which ballots the proposer adds, and that all other sessions stay |
| BlsSession.TimeoutIff | internal/bls/handle.go:12-28 | a session outlives the timeout check exactly when its deadline is not past |
| BlsSession.StepKeepsRecord | internal/bls/handle_block.go:60-103 | submissions stay on record and a removed session never returns under its number |
| BlsSession.FoundCountIff | internal/state/btc_head.go:178-188 | counting known blocks finds exactly the lists of different known hashes |
| BlsSession.VoterSignsIff | internal/bls/handle_block.go:159-225 | a voter signs exactly proposals for the next height and its epoch with 1 to 16 different hashes of known unprocessed blocks |
| BlsSession.AnswersOnce | internal/bls/handle_block.go:190-226 | a voter that signs publishes one ballot, the proposal's fields under its own address and signature |

## Left out

- Pricing.PriceInGeneral: floating-point fees are modelled as reals, so rounding of the virtual size and of the effective price is not captured.
- TxCreate.HandleTxSizeError: the endless recursion on a single input is modelled as the outcome NoReturn; NoReturnIff says when it happens.
- Spv.GenerateSPVProof: double SHA-256 and hash parsing are arbitrary functions, so collision freedom appears as the alternative of a named collision.
- BlsVote.AggregateBallots: signature aggregation is an arbitrary function, and the validity of single signatures is not modelled.
- BlsSigner.Signer.CheckTimeouts: each handler and the timeout check is one atomic step; the interleaving of the timeout goroutine inside a handler is not modelled.
- WalletServer.WalletServer.InitWithdrawSig: a tick is one atomic step, although the code queries coins and withdrawals and saves the order under separate locks. NodeAllocatesOnce and NodePaysOnce do not depend on this: they take the clean-up and the saving of an order as separate steps with anything in between.
- WalletServer.WalletServer.SaveOrder: that only a taken order id makes saving fail holds because nothing comes between query and saving; in the code a coin or withdrawal may have changed its status meanwhile.
- The transaction hash, the random order id, address decoding and encoding, the size limits and the clock are parameters of a tick.
- Integers are unbounded: overflow of 64-bit amounts, the position type of the bitmap and the truncation of fees to unsigned integers are not modelled.
- Timestamps other than the creation time of withdrawals, and columns that no step reads, are not modelled.
- Database failures other than a missing row, a duplicate key and an empty insert are not modelled; a failing transaction is rolled back as the database promises. Columns that the database layer skips because they are empty strings are not modelled: order ids and transaction ids are taken to be written as given.
- Wallet.WalletState.UpdateSendOrderPending: the panic on a withdrawal id without a row is modelled as the error NilRow with a rollback.
- Wallet.WalletState.CleanProcessingWithdrawByOrderId: modelled although nothing in the repository calls it; the failing runs do without it.
- Wallet.WalletState.AddUtxo: an error of saving the deposit row, which the code only logs, is not modelled.
- The order of rows with equal sort keys is not promised, as the sort used is not stable.
- AddOrUpdateVin and AddOrUpdateVout are not modelled. The first spends a coin and may add an input row without an order, the second copies the status of a found output into its withdrawal and its order, whatever they were. "Every run" and "every reachable database" speak of the modelled steps.
- Voting on send orders, deposits, finalisation and new voters: the new-block session is the one protocol of this kind that is modelled.
- ConsolidateSmallUTXOs, the older size estimate, VerifyBlockSPV's header comparison and the read-only listings of orders are left out.
- Signing, transaction encoding beyond its size, networking, event bus, RPC, configuration and migrations are left out.
