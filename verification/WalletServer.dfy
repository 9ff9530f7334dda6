// Starting a send order: from the wallet tables to an aggregating order (internal/wallet/withdraw.go).
module WalletServer {
  import opened Common
  import opened Models
  import opened Sums
  import opened TxSize
  import opened CoinSelection
  import opened BatchSelection
  import opened TxBuilder
  import opened TxCreate
  import opened BuildTheorems
  import opened WalletRows
  import opened OrderSteps
  import opened Wallet
  import opened Keys
  import Allocation
  import Pricing

  // ---------- Queries ----------

  function RequestIdOf(w: Withdraw): nat {
    w.requestId
  }

  function TaskIdOf(t: Task): nat {
    t.taskId
  }

  // The rows are exactly the spendable coins, each once.
  ghost predicate SpendableRows(db: Db, rows: seq<Utxo>) {
    && DistinctKeys(OutPointOf, rows)
    && (forall u :: u in rows ==> u.outPoint in db.utxos && Spendable(u) && u == db.utxos[u.outPoint])
    && (forall op :: op in db.utxos && Spendable(db.utxos[op]) ==> db.utxos[op] in rows)
  }

  // The rows are exactly the withdrawals that wait for an order, each once.
  ghost predicate WaitingRows(db: Db, rows: seq<Withdraw>) {
    && DistinctKeys(RequestIdOf, rows)
    && (forall w :: w in rows ==>
          w.requestId in db.withdraws && w.status == Create && w == db.withdraws[w.requestId])
    && (forall id :: id in db.withdraws && db.withdraws[id].status == Create ==> db.withdraws[id] in rows)
  }

  method GetUtxoCanSpend(db: Db) returns (utxos: array<Utxo>)
    requires Keyed(db)
    ensures fresh(utxos) && SpendableRows(db, utxos[..]) && Ascending(AmountDown, utxos[..])
  {
    var rows: seq<Utxo> := [];
    var rest := db.utxos.Keys;
    while rest != {}
      invariant rest <= db.utxos.Keys && DistinctKeys(OutPointOf, rows)
      invariant forall u :: u in rows ==> u.outPoint in db.utxos.Keys - rest && Spendable(u) && u == db.utxos[u.outPoint]
      invariant forall op :: op in db.utxos.Keys - rest && Spendable(db.utxos[op]) ==> db.utxos[op] in rows
      decreases |rest|
    {
      var op: OutPoint :| op in rest;
      rest := rest - {op};
      if db.utxos[op].status == CoinConfirmed || db.utxos[op].status == CoinProcessed {
        assert forall i :: 0 <= i < |rows| ==> rows[i] in rows;
        rows := rows + [db.utxos[op]];
      }
    }
    utxos := new Utxo[|rows|](i requires 0 <= i < |rows| => rows[i]);
    assert utxos[..] == rows;
    SortSlice(utxos, AmountDown);
    ChoiceIsDistinct(OutPointOf, rows, utxos[..]);
    assert forall u :: u in rows ==> u in multiset(utxos[..]);
  }

  method GetWithdrawsCanStart(db: Db) returns (withdraws: array<Withdraw>)
    requires Keyed(db)
    ensures fresh(withdraws) && WaitingRows(db, withdraws[..]) && Ascending(PriceDown, withdraws[..])
  {
    var rows: seq<Withdraw> := [];
    var rest := db.withdraws.Keys;
    while rest != {}
      invariant rest <= db.withdraws.Keys && DistinctKeys(RequestIdOf, rows)
      invariant forall w :: w in rows ==> w.requestId in db.withdraws.Keys - rest
                                          && w.status == Create && w == db.withdraws[w.requestId]
      invariant forall id :: id in db.withdraws.Keys - rest && db.withdraws[id].status == Create ==> db.withdraws[id] in rows
      decreases |rest|
    {
      var id: nat :| id in rest;
      rest := rest - {id};
      if db.withdraws[id].status == Create {
        assert forall i :: 0 <= i < |rows| ==> rows[i] in rows;
        rows := rows + [db.withdraws[id]];
      }
    }
    withdraws := new Withdraw[|rows|](i requires 0 <= i < |rows| => rows[i]);
    assert withdraws[..] == rows;
    SortSlice(withdraws, PriceDown);
    ChoiceIsDistinct(RequestIdOf, rows, withdraws[..]);
    assert forall w :: w in rows ==> w in multiset(withdraws[..]);
  }

  // The positions in the task list of the rows that a query returned, falling.
  ghost predicate NewestFirst(db: Db, rows: seq<Task>, at: seq<nat>) {
    && |at| == |rows| && (forall i, j :: 0 <= i < j < |at| ==> at[i] > at[j])
    && forall i :: 0 <= i < |at| ==> at[i] < |db.taskIds| && db.taskIds[at[i]] == rows[i].taskId
  }

  // The rows are exactly the safebox tasks that wait for their transaction, each once, the last inserted first.
  ghost predicate ReadyTasks(db: Db, rows: seq<Task>) {
    && DistinctKeys(TaskIdOf, rows) && (exists at :: NewestFirst(db, rows, at))
    && (forall t :: t in rows ==> t.taskId in db.tasks && t.status == ReceivedOk && t == db.tasks[t.taskId])
    && (forall id :: id in db.tasks && db.tasks[id].status == ReceivedOk ==> db.tasks[id] in rows)
  }

  method GetSafeboxTasks(db: Db) returns (tasks: array<Task>)
    requires Keyed(db)
    ensures fresh(tasks) && ReadyTasks(db, tasks[..])
  {
    var rows: seq<Task> := [];
    ghost var at: seq<nat> := [];
    var k := |db.taskIds|;
    while k > 0
      invariant 0 <= k <= |db.taskIds| && ReadyFrom(db, rows, at, k)
    {
      k := k - 1;
      ReadyNext(db, rows, at, k);
      var id := db.taskIds[k];
      if db.tasks[id].status == ReceivedOk {
        rows, at := rows + [db.tasks[id]], at + [k];
      }
    }
    tasks := new Task[|rows|](i requires 0 <= i < |rows| => rows[i]);
    assert tasks[..] == rows;
    RowsAreReady(db, rows, at);
  }

  // The rows for the tasks listed from a place on.
  ghost predicate ReadyFrom(db: Db, rows: seq<Task>, at: seq<nat>, k: nat)
    requires Keyed(db)
  {
    && NewestFirst(db, rows, at) && (forall i :: 0 <= i < |at| ==> at[i] >= k) && AreReady(db, rows)
    && forall j :: k <= j < |db.taskIds| && db.tasks[db.taskIds[j]].status == ReceivedOk ==> db.tasks[db.taskIds[j]] in rows
  }

  lemma ReadyNext(db: Db, rows: seq<Task>, at: seq<nat>, k: nat)
    requires Keyed(db) && k < |db.taskIds| && ReadyFrom(db, rows, at, k + 1)
    ensures var t := db.tasks[db.taskIds[k]];
            if t.status == ReceivedOk then ReadyFrom(db, rows + [t], at + [k], k) else ReadyFrom(db, rows, at, k)
  {
  }

  ghost predicate AreReady(db: Db, rows: seq<Task>) {
    forall i :: 0 <= i < |rows| ==>
      rows[i].taskId in db.tasks && rows[i].status == ReceivedOk && rows[i] == db.tasks[rows[i].taskId]
  }

  lemma RowsAreReady(db: Db, rows: seq<Task>, at: seq<nat>)
    requires Keyed(db) && NewestFirst(db, rows, at) && AreReady(db, rows)
    requires forall j :: 0 <= j < |db.taskIds| && db.tasks[db.taskIds[j]].status == ReceivedOk ==>
               db.tasks[db.taskIds[j]] in rows
    ensures ReadyTasks(db, rows)
  {
    forall i, j | 0 <= i < j < |rows| ensures TaskIdOf(rows[i]) != TaskIdOf(rows[j]) {
      assert db.taskIds[at[j]] != db.taskIds[at[i]];
    }
    forall id | id in db.tasks && db.tasks[id].status == ReceivedOk ensures db.tasks[id] in rows {
      assert id in db.taskIds;
    }
  }

  // Any order in progress counts, whatever its type.
  predicate HasConsolidationInProgress(db: Db) {
    exists id | id in db.orders :: db.orders[id].status in {Aggregating, Init, Pending}
  }

  // ---------- The order of a transaction ----------

  // The withdrawal that the output at a position pays: withdrawals come first.
  function PaidBy(kind: OrderType, ids: seq<nat>, i: nat): Option<nat> {
    if kind == Withdrawal && i < |ids| then Some(ids[i]) else None
  }

  ghost predicate VoutsFor(n: NewOrder, tx: Tx, addressOf: Script -> string) {
    && |n.vouts| == |tx.outputs|
    && forall i :: 0 <= i < |n.vouts| ==>
         n.vouts[i] == Vout(n.order.orderId, n.order.txid, i, PaidBy(n.order.orderType, n.withdrawIds, i),
                            tx.outputs[i].value, addressOf(tx.outputs[i].script), Aggregating)
  }

  // One vin for each input, with the receiver type of the coin chosen for it, and one vout for each output, with the
  // withdrawal it pays and the address of its script.
  ghost predicate OrderFor(n: NewOrder, orderId: string, txid: string, kind: OrderType, tx: Tx, utxos: seq<Utxo>, ids: seq<nat>,
                           addressOf: Script -> string)
  {
    && n.order == Order(orderId, txid, kind, Aggregating, 0, 0, "")
    && n.coins == OutPoints(utxos)
    && |n.vins| == |tx.inputs| == |utxos| && |n.vouts| == |tx.outputs|
    && (forall i :: 0 <= i < |n.vins| ==> n.vins[i] == Vin(orderId, tx.inputs[i], utxos[i].receiverType, Aggregating))
    && VoutsFor(n, tx, addressOf) && n.withdrawIds == ids
  }

  function RequestIds(ws: seq<Withdraw>): (r: seq<nat>)
    ensures |r| == |ws| && forall i :: 0 <= i < |r| ==> r[i] == ws[i].requestId
  {
    seq(|ws|, i requires 0 <= i < |ws| => ws[i].requestId)
  }

  method BuildOrder(orderId: string, txid: string, kind: OrderType, tx: Tx, utxos: seq<Utxo>, ids: seq<nat>, taskIds: seq<nat>,
                    addressOf: Script -> string)
    returns (n: NewOrder)
    requires |tx.inputs| == |utxos|
    ensures OrderFor(n, orderId, txid, kind, tx, utxos, ids, addressOf) && n.taskIds == taskIds
  {
    var vins: seq<Vin> := [];
    for i := 0 to |tx.inputs|
      invariant |vins| == i
      invariant forall k :: 0 <= k < i ==> vins[k] == Vin(orderId, tx.inputs[k], utxos[k].receiverType, Aggregating)
    {
      vins := vins + [Vin(orderId, tx.inputs[i], utxos[i].receiverType, Aggregating)];
    }
    var vouts: seq<Vout> := [];
    for i := 0 to |tx.outputs|
      invariant |vouts| == i
      invariant forall k :: 0 <= k < i ==>
                  vouts[k] == Vout(orderId, txid, k, PaidBy(kind, ids, k), tx.outputs[k].value, addressOf(tx.outputs[k].script),
                                   Aggregating)
    {
      vouts := vouts + [Vout(orderId, txid, i, PaidBy(kind, ids, i), tx.outputs[i].value, addressOf(tx.outputs[i].script), Aggregating)];
    }
    n := NewOrder(Order(orderId, txid, kind, Aggregating, 0, 0, ""), OutPoints(utxos), ids, taskIds, vins, vouts);
  }

  // ---------- Withdrawals that fail for dust ----------

  function CloseDust(db: Db, ws: seq<Withdraw>, networkFee: int): Db {
    if ws == [] then db else
    var front := CloseDust(db, ws[..|ws| - 1], networkFee);
    var w := ws[|ws| - 1];
    if w.amount <= GetDustAmount(networkFee) then CloseWithdraw(front, w.requestId, "dust limit") else front
  }

  method CloseDustWithdrawals(state: WalletState, ws: seq<Withdraw>, networkFee: int)
    modifies state
    ensures state.db == CloseDust(old(state.db), ws, networkFee)
  {
    for i := 0 to |ws|
      invariant state.db == CloseDust(old(state.db), ws[..i], networkFee)
    {
      assert ws[..i + 1][..i] == ws[..i];
      if ws[i].amount <= GetDustAmount(networkFee) {
        state.CloseWithdrawByRequestId(ws[i].requestId, "dust limit");
      }
    }
    assert ws[..|ws|] == ws;
  }

  // The members of a batch are worth more than dust at its price, so none of them is ever closed here.
  lemma {:induction false} NothingToClose(db: Db, ws: seq<Withdraw>, networkFee: int)
    requires forall i :: 0 <= i < |ws| ==> ws[i].amount > GetDustAmount(networkFee)
    ensures CloseDust(db, ws, networkFee) == db
    decreases |ws|
  {
    if ws != [] {
      NothingToClose(db, ws[..|ws| - 1], networkFee);
    }
  }

  // ---------- initWithdrawSig ----------

  const CONSOLIDATION_TRIGGER_COUNT := 150
  const CONSOLIDATION_MAX_VIN := 200
  const CONSOLIDATION_THRESHOLD := 50_000_000
  const WITHDRAW_IMMEDIATE_COUNT := 32
  const WITHDRAW_MAX_VOUT := 32
  const SAFEBOX_EXTERNAL_AMOUNT := 100_000

  // What a round finds around it.  orderId is a new random id and txidOf the transaction hash.
  datatype Setting = Setting(
    l2Syncing: bool, btcSyncing: bool, l2Height: nat, epochHeight: nat, isProposer: bool,
    fee: NetworkFee, maxNetworkFee: nat, now: int, network: string,
    orderId: string, chain: Chain, changeAddress: string, txidOf: Tx -> string,
    addressOf: Script -> string)

  datatype Ending =
    | Ignored | NoCoins | NotConsolidated(mergeError: ConsolidateError) | NoTask | NoWithdrawals
    | NotSelected(batchError: BatchError) | NotFunded(shortage: NotEnough)
    | NotBuilt(buildError: TxError) | Hangs | NotSaved(saveError: DbError) | Running(n: NewOrder, tx: Tx)

  // A round saves an order whose vins are exactly the transaction's inputs, on coins that are free, or leaves
  // the tables alone.  Saving fails only when the random order id is taken.
  ghost predicate Launched(db: Db, db': Db, t: Setting, r: Ending) {
    match r
    case Running(n, tx) =>
      && OrderSteps.CreateSendOrder(db, n, true) == Ok(db')
      && Allocation.ProperOrder(n) && n.order.orderId == t.orderId && n.order.txid == t.txidOf(tx)
      && CoinsFree(db.utxos, n.coins) && n.coins == tx.inputs != []
      && VoutsFor(n, tx, t.addressOf)
    case NotSaved(_) => db' == db && t.orderId in db.orders
    case _ => db' == db
  }

  // The first outputs pay the order's withdrawals in turn, each its amount less the fee.
  ghost predicate PaysInTurn(db: Db, net: Net, ids: seq<nat>, tx: Tx, fee: int) {
    && |ids| <= |tx.outputs|
    && forall i :: 0 <= i < |ids| ==>
         && ids[i] in db.withdraws && net(db.withdraws[ids[i]].to) == Some(tx.outputs[i].script)
         && tx.outputs[i].value == db.withdraws[ids[i]].amount - fee
  }

  ghost predicate PaysWithdrawals(db: Db, net: Net, n: NewOrder, tx: Tx) {
    n.order.orderType == Withdrawal ==> n.withdrawIds != [] && exists fee :: PaysInTurn(db, net, n.withdrawIds, tx, fee)
  }

  // What a tick may do.
  datatype Gate = Wait | StepDown | Go

  function GateOf(t: Setting, sigStatus: bool, sigFinishHeight: nat): Gate {
    if t.l2Syncing || t.btcSyncing || t.fee.fastest == 0 || t.fee.fastest > t.maxNetworkFee then Wait
    else if t.l2Height <= t.epochHeight + 5 then Wait
    else if !t.isProposer then (if sigStatus then StepDown else Wait)
    else if sigStatus || t.l2Height <= sigFinishHeight + 5 then Wait
    else Go
  }

  // ---------- What a round comes to ----------

  // Building a choice and saving its order.
  ghost predicate EndsAs(t: Setting, p: Params, r: Ending) {
    match RawTransaction(t.chain, p)
    case NoReturn => r == Hangs
    case Failed(e) => r == NotBuilt(e)
    case Success(b) => r.NotSaved? || (r.Running? && r.tx == b.tx)
  }

  function ParamsFor(t: Setting, ws: seq<Withdraw>, tasks: seq<Task>, s: Selection, networkFee: int): Params
    requires s.witnessSize >= 0
  {
    Params(s.utxos, ws, tasks, t.changeAddress, s.changeAmount, s.estimatedFee, s.witnessSize, networkFee,
           s.total, s.withdrawAmount)
  }

  // What is to be paid, and the price it is to be paid at.
  datatype Demand = Demand(
    ws: seq<Withdraw>, tasks: seq<Task>, receiverTypes: seq<WalletType>, amount: int, external: int, price: int, outputs: nat)

  ghost predicate PaidFrom(t: Setting, sel: seq<Utxo>, d: Demand, r: Ending) {
    if Sum(Amount, sel) < d.amount + d.external then
      r == NotFunded(NotEnough(Sum(Amount, sel), FeeFor(sel, d.receiverTypes, d.outputs, d.price)))
    else
      exists s: Selection ::
        && s.utxos == sel && s.withdrawAmount == d.amount && s.witnessSize >= 0
        && PricedBy(s, d.receiverTypes, d.price, d.outputs) && EndsAs(t, ParamsFor(t, d.ws, d.tasks, s, d.price), r)
  }

  // An optimal core with its sweep.
  ghost predicate Optimal(pool: seq<Utxo>, sel: seq<Utxo>, required: int, price: int) {
    exists core, sweep :: sel == core + sweep && OptimalCore(pool, core, required) && IsSweep(pool, core, sweep, price)
  }

  // Paid from an optimal selection of the spendable coins.
  ghost predicate PaidOptimally(t: Setting, pool: seq<Utxo>, d: Demand, r: Ending) {
    exists sel :: Optimal(pool, sel, d.amount + d.external, d.price) && PaidFrom(t, sel, d, r)
  }

  // The small coins that a consolidation merges.
  function MergedCoins(rows: seq<Utxo>): seq<Utxo> {
    Taken(rows, CONSOLIDATION_THRESHOLD, CONSOLIDATION_MAX_VIN)
  }

  function MergeOf(t: Setting, rows: seq<Utxo>): Result<Merge, ConsolidateError> {
    var fee, sel := t.fee.halfHour, MergedCoins(rows);
    var total, cost := Sum(Amount, sel), ConsolidationFee(sel, fee);
    if fee > t.maxNetworkFee then Err(FeeTooHigh)
    else if total < GetDustAmount(fee) then Err(TotalTooLow)
    else if total <= cost then Err(FeeExceedsTotal)
    else Ok(Merge(sel, total, total - cost, WitnessSize(Types(sel))))
  }

  function MergeParams(t: Setting, m: Merge): Params
    requires m.witnessSize >= 0
  {
    Params(m.utxos, [], [], t.changeAddress, m.finalAmount, 0.0, m.witnessSize, t.fee.halfHour, m.total, 0)
  }

  ghost predicate MergeOutcome(t: Setting, rows: seq<Utxo>, r: Ending) {
    match MergeOf(t, rows)
    case Err(e) => r == NotConsolidated(e)
    case Ok(m) => m.witnessSize >= 0 && EndsAs(t, MergeParams(t, m), r)
  }

  function TaskDemand(t: Setting, task: Task): Demand {
    Demand([], [task], [GetAddressType(t.chain.net, task.timelockAddress)], task.amount, SAFEBOX_EXTERNAL_AMOUNT, t.fee.halfHour, 1)
  }

  ghost predicate SafeboxOutcome(t: Setting, pool: seq<Utxo>, tasks: seq<Task>, r: Ending) {
    if t.fee.halfHour > t.maxNetworkFee then r == NoTask
    else
      exists task :: task in tasks && (forall x :: x in tasks ==> task.deadline <= x.deadline)
        && PaidOptimally(t, pool, TaskDemand(t, task), r)
  }

  function PolicyOf(t: Setting): Policy {
    var waits := WithdrawalWaitTime(t.network);
    Policy(WITHDRAW_MAX_VOUT, WITHDRAW_IMMEDIATE_COUNT, t.now, waits.0, waits.1)
  }

  function BatchDemand(batch: Batch): Demand {
    Demand(batch.withdrawals, [], batch.receiverTypes, batch.amount, 0, batch.price, |batch.withdrawals|)
  }

  ghost predicate WithdrawalsOutcome(t: Setting, pool: seq<Utxo>, all: seq<Withdraw>, r: Ending) {
    if t.fee.fastest > t.maxNetworkFee then r == NotSelected(NetworkFeeTooHigh)
    else
      || (r == NotSelected(NoneReady) && forall b :: Unready(all, t.fee, PolicyOf(t), b))
      || exists band, batch ::
           BatchOfBand(all, t.fee, PolicyOf(t), t.chain.net, band, batch) && PaidOptimally(t, pool, BatchDemand(batch), r)
  }

  // Which branch a round takes, and how it ends: consolidation goes first, then safebox tasks, then withdrawals.
  ghost predicate StartOutcome(db: Db, t: Setting, r: Ending) {
    exists rows :: SpendableRows(db, rows) && Ascending(AmountDown, rows) && BranchOutcome(db, t, rows, r)
  }

  ghost predicate BranchOutcome(db: Db, t: Setting, rows: seq<Utxo>, r: Ending) {
    if rows == [] then r == NoCoins
    else if |rows| >= CONSOLIDATION_TRIGGER_COUNT && !HasConsolidationInProgress(db) then MergeOutcome(t, rows, r)
    else if exists id :: id in db.tasks && db.tasks[id].status == ReceivedOk then
      exists tasks :: ReadyTasks(db, tasks) && SafeboxOutcome(t, rows, tasks, r)
    else if !exists id :: id in db.withdraws && db.withdraws[id].status == Create then r == NoWithdrawals
    else exists all :: WaitingRows(db, all) && WithdrawalsOutcome(t, rows, all, r)
  }

  // How a tick changes the tables.
  ghost predicate Ticked(db: Db, db': Db, t: Setting, gate: Gate, r: Ending) {
    match gate
    case Wait => r == Ignored && db' == db
    case StepDown => r == Ignored && db' == CleanProcessingWithdraw(db)
    case Go =>
      && r != Ignored && Launched(CleanProcessingWithdraw(db), db', t, r)
      && (r.Running? ==> PaysWithdrawals(CleanProcessingWithdraw(db), t.chain.net, r.n, r.tx))
  }

  // A tick gets past waiting exactly when this node proposes, both chains are in sync, the fee is known and not too high,
  // five blocks have passed since the epoch and since the last signature, and no signature is in progress.  It then
  // cleans up and starts.  A node that does not propose cleans up if it is still signing, and waits otherwise.
  lemma TickStartsIff(db: Db, db': Db, t: Setting, sigStatus: bool, sigFinishHeight: nat, r: Ending)
    requires Ticked(db, db', t, GateOf(t, sigStatus, sigFinishHeight), r)
    ensures r != Ignored
            <==> && t.isProposer && !t.l2Syncing && !t.btcSyncing && 0 < t.fee.fastest <= t.maxNetworkFee
                 && t.l2Height > t.epochHeight + 5 && t.l2Height > sigFinishHeight + 5 && !sigStatus
    ensures r != Ignored ==> Launched(CleanProcessingWithdraw(db), db', t, r)
    ensures r == Ignored ==>
              db' == if && !t.isProposer && sigStatus && !t.l2Syncing && !t.btcSyncing && 0 < t.fee.fastest <= t.maxNetworkFee
                        && t.l2Height > t.epochHeight + 5
                     then CleanProcessingWithdraw(db) else db
  {
  }

  lemma CleanAddsNoOrder(db: Db)
    ensures CleanProcessingWithdraw(db).orders.Keys == db.orders.Keys && CleanProcessingWithdraw(db).orderIds == db.orderIds
  {
    CleanedSameKeys(db);
  }

  // A tick adds at most the order under its own id, and only on a node that proposes and signs nothing.
  lemma TickAddsIff(db: Db, db': Db, t: Setting, sigStatus: bool, sigFinishHeight: nat, r: Ending)
    requires Ticked(db, db', t, GateOf(t, sigStatus, sigFinishHeight), r)
    ensures db'.orderIds == if r.Running? then db.orderIds + [t.orderId] else db.orderIds
    ensures db'.orders.Keys == if r.Running? then db.orders.Keys + {t.orderId} else db.orders.Keys
    ensures r.Running? ==>
              && t.orderId !in db.orders && db'.orders[t.orderId] == r.n.order && r.n.order.txid == t.txidOf(r.tx)
              && t.isProposer && !sigStatus && !t.l2Syncing && !t.btcSyncing && 0 < t.fee.fastest <= t.maxNetworkFee
              && t.l2Height > t.epochHeight + 5 && t.l2Height > sigFinishHeight + 5
  {
    CleanAddsNoOrder(db);
  }

  // The rows of a round's order: one input for each input of the transaction, one output for each of its outputs with
  // its amount, position and receiver, and its leading outputs name the withdrawals they pay.
  lemma RoundRows(db: Db, db': Db, t: Setting, r: Ending, i: nat)
    requires Launched(db, db', t, r) && r.Running?
    ensures |db'.vins| == |db.vins| + |r.tx.inputs| && |db'.vouts| == |db.vouts| + |r.tx.outputs|
    ensures db.vins == db'.vins[..|db.vins|] && db.vouts == db'.vouts[..|db.vouts|]
    ensures i < |r.tx.inputs| ==> var v := db'.vins[|db.vins| + i];
              v.orderId == t.orderId && v.prev == r.tx.inputs[i] && v.prev in db.utxos && db'.utxos[v.prev].status == CoinPending
    ensures i < |r.tx.outputs| ==> var v := db'.vouts[|db.vouts| + i];
              && v.orderId == t.orderId && v.txid == t.txidOf(r.tx) && v.outIndex == i && v.status == Aggregating
              && v.amount == r.tx.outputs[i].value && v.receiver == t.addressOf(r.tx.outputs[i].script)
              && (if r.n.order.orderType == Withdrawal && i < |r.n.withdrawIds| then v.withdrawId == Some(r.n.withdrawIds[i])
                  else v.withdrawId == None)
  {
    if i < |r.tx.inputs| {
      assert r.n.coins[i] in ToSet(r.n.coins);
    }
  }

  // A round, its clean-up included, keeps every output promised to at most one transaction.
  lemma RoundKeepsAllocation(db: Db, db': Db, t: Setting, r: Ending)
    requires Allocation.NoDoubleAllocation(db) && Launched(CleanProcessingWithdraw(db), db', t, r)
    ensures Allocation.NoDoubleAllocation(db')
  {
    Allocation.CleanKeeps(db);
    if r.Running? {
      Allocation.CreateKeeps(CleanProcessingWithdraw(db), r.n, true);
    }
  }

  // ---------- Why the choices can be saved ----------

  lemma ChosenAreFree(db: Db, pool: seq<Utxo>, utxos: seq<Utxo>)
    requires SpendableRows(db, pool) && DistinctKeys(OutPointOf, utxos) && forall u :: u in utxos ==> u in pool
    ensures CoinsFree(db.utxos, OutPoints(utxos))
  {
    var coins := OutPoints(utxos);
    assert forall i :: 0 <= i < |utxos| ==> utxos[i] in utxos && coins[i] == utxos[i].outPoint;
  }

  lemma ChosenAreTakeable(db: Db, all: seq<Withdraw>, ws: seq<Withdraw>)
    requires WaitingRows(db, all) && DistinctKeys(RequestIdOf, ws) && forall w :: w in ws ==> w in all
    ensures WithdrawsTakeable(db.withdraws, RequestIds(ws), true)
  {
    assert forall i :: 0 <= i < |ws| ==> ws[i] in ws;
    assert forall i :: 0 <= i < |ws| ==> RequestIdOf(ws[i]) == RequestIds(ws)[i];
  }

  lemma BatchIsDistinct(all: seq<Withdraw>, fee: NetworkFee, b: Band, maxVout: nat, sel: seq<Withdraw>)
    requires IsBatch(all, fee, b, maxVout, sel) && DistinctKeys(RequestIdOf, all)
    ensures DistinctKeys(RequestIdOf, sel) && forall w :: w in sel ==> w in all
  {
    var rest :| AreMembers(all, fee, b, multiset(sel + rest)) && Ascending(CreatedUnix, sel + rest)
                && |sel| <= maxVout && (|sel| < maxVout ==> rest == []);
    forall w ensures multiset(sel)[w] <= multiset(all)[w] {
      assert multiset(sel + rest)[w] == multiset(sel)[w] + multiset(rest)[w];
    }
    ChoiceIsDistinct(RequestIdOf, all, sel);
  }

  lemma SelectionIsFree(db: Db, pool: seq<Utxo>, core: seq<Utxo>, sweep: seq<Utxo>, required: int, networkFee: int)
    requires SpendableRows(db, pool)
    requires OptimalCore(pool, core, required) && IsSweep(pool, core, sweep, networkFee)
    ensures CoinsFree(db.utxos, OutPoints(core + sweep))
  {
    SelectionIsDistinct(pool, core, sweep, required, networkFee);
    ChosenAreFree(db, pool, core + sweep);
  }

  // Withdrawals as they stand in the table, waiting, and worth more than dust.
  ghost predicate Payable(db: Db, ws: seq<Withdraw>, networkFee: int) {
    && WithdrawsTakeable(db.withdraws, RequestIds(ws), true)
    && forall i :: 0 <= i < |ws| ==>
         && ws[i].requestId in db.withdraws && ws[i].to == db.withdraws[ws[i].requestId].to
         && ws[i].amount == db.withdraws[ws[i].requestId].amount > GetDustAmount(networkFee)
  }

  // Withdrawals or a task that may be taken, for a positive amount.
  ghost predicate Demandable(db: Db, kind: OrderType, d: Demand, taskIds: seq<nat>) {
    && d.amount + d.external > 0 && kind != Consolidation
    && (kind == Withdrawal ==> d.tasks == [] && d.ws != [] && Payable(db, d.ws, d.price))
    && (kind == Safebox ==> d.ws == [] && d.tasks != [] && TasksTakeable(db.tasks, taskIds, true))
  }

  // A choice whose coins are free, and whose withdrawals and tasks may be taken.
  ghost predicate Launchable(db: Db, kind: OrderType, p: Params, taskIds: seq<nat>) {
    && p.utxos != [] && CoinsFree(db.utxos, OutPoints(p.utxos))
    && (kind == Withdrawal <==> p.withdrawals != []) && (kind == Safebox <==> p.tasks != [])
    && (kind == Consolidation ==> p.changeAmount > 0 && p.estimatedFee == 0.0)
    && (kind == Withdrawal ==> p.tasks == [] && Payable(db, p.withdrawals, p.networkFee))
    && (kind == Safebox ==> TasksTakeable(db.tasks, taskIds, true))
  }

  lemma FeeBlindSame(db: Db, a: seq<Withdraw>, b: seq<Withdraw>, networkFee: int)
    requires FeeBlind(a) == FeeBlind(b)
    ensures Payable(db, a, networkFee) <==> Payable(db, b, networkFee)
  {
    assert |a| == |b|;
    assert forall i :: 0 <= i < |a| ==> FeeBlind(a)[i] == FeeBlind(b)[i];
    assert RequestIds(a) == RequestIds(b);
  }

  lemma FreePrefix(utxos: map<OutPoint, Utxo>, all: seq<Utxo>, some: seq<Utxo>)
    requires CoinsFree(utxos, OutPoints(all)) && some <= all
    ensures CoinsFree(utxos, OutPoints(some))
  {
    assert forall i :: 0 <= i < |some| ==> OutPoints(some)[i] == OutPoints(all)[i];
  }

  // What building keeps of a choice, whichever way it ends.
  lemma LaunchFacts(db: Db, t: Setting, kind: OrderType, p: Params, taskIds: seq<nat>, out: TxBuilder.Outcome,
                    coins: seq<Utxo>, ws: seq<Withdraw>)
    requires Launchable(db, kind, p, taskIds) && coins <= p.utxos && FeeBlind(ws) == FeeBlind(p.withdrawals)
    requires out == RawTransaction(t.chain, p)
    ensures CoinsFree(db.utxos, OutPoints(coins))
    ensures kind == Withdrawal ==> ws != [] && Payable(db, ws, p.networkFee) && CloseDust(db, ws, p.networkFee) == db
    ensures out.Success? ==> out.built.tx.outputs != []
    ensures out.Success? && kind == Withdrawal ==> exists fee :: PaysInTurn(db, t.chain.net, RequestIds(ws), out.built.tx, fee)
  {
    FreePrefix(db.utxos, p.utxos, coins);
    FeeBlindSame(db, ws, p.withdrawals, p.networkFee);
    if kind == Withdrawal {
      NothingToClose(db, ws, p.networkFee);
    }
    if out.Success? {
      BuiltOutputs(t.chain, p);
      if kind == Withdrawal {
        OutputsPay(db, t.chain, p, ws, out.built.tx);
      }
    }
  }

  function Deadline(t: Task): int {
    t.deadline
  }

  lemma CoveringIsNonempty(utxos: seq<Utxo>, required: int)
    requires Sum(Amount, utxos) >= required > 0
    ensures utxos != []
  {
  }

  // Parameters with a withdrawal, a task or positive change give a transaction with an output.
  lemma BuiltOutputs(env: Chain, p: Params)
    requires RawTransaction(env, p).Success?
    requires p.withdrawals != [] || p.tasks != [] || (p.changeAmount > 0 && p.estimatedFee == 0.0)
    ensures RawTransaction(env, p).built.tx.outputs != []
  {
    ReturnedOutputs(env, p);
  }

  lemma {:induction false} SmallIsChosen(pool: seq<Utxo>, threshold: int)
    ensures multiset(Small(pool, threshold)) <= multiset(pool)
  {
    if pool != [] {
      var front := pool[..|pool| - 1];
      assert pool == front + [pool[|pool| - 1]];
      SmallIsChosen(front, threshold);
    }
  }

  lemma MergeIsFree(db: Db, pool: seq<Utxo>, t: Setting)
    requires SpendableRows(db, pool) && MergeOf(t, pool).Ok?
    ensures var m := MergeOf(t, pool).value; CoinsFree(db.utxos, OutPoints(m.utxos)) && m.utxos != [] && m.witnessSize >= 0
  {
    var small, sel := Small(pool, CONSOLIDATION_THRESHOLD), MergedCoins(pool);
    SmallIsChosen(pool, CONSOLIDATION_THRESHOLD);
    ChoiceIsDistinct(OutPointOf, pool, small);
    assert forall i :: 0 <= i < |sel| ==> sel[i] == small[i];
    assert forall u :: u in sel ==> u in small;
    ChosenAreFree(db, pool, sel);
    Pricing.WitnessNonNegative(sel);
    MergeNotEmpty(t, pool);
  }

  lemma MergeNotEmpty(t: Setting, pool: seq<Utxo>)
    requires MergeOf(t, pool).Ok?
    ensures MergedCoins(pool) != []
  {
    if MergedCoins(pool) == [] {
      NoFreeFee(t.fee.halfHour);
    }
  }

  method ChooseMerge(t: Setting, utxos: seq<Utxo>) returns (merge: Result<Merge, ConsolidateError>)
    requires |utxos| >= CONSOLIDATION_TRIGGER_COUNT
    ensures merge == MergeOf(t, utxos)
  {
    merge := ConsolidateUTXOsByCount(utxos, t.fee.halfHour, t.maxNetworkFee, CONSOLIDATION_THRESHOLD,
                                     CONSOLIDATION_MAX_VIN, CONSOLIDATION_TRIGGER_COUNT);
    if merge.Err? {
      assert merge.error.FeeTooHigh? || merge.error.NotEnoughUtxos? || merge.error.TotalTooLow? || merge.error.FeeExceedsTotal?;
    }
  }

  lemma NoFreeFee(networkFee: nat)
    ensures ConsolidationFee([], networkFee) >= 0
  {
    CeilBounds(VirtualSize([P2WPKH], 1, Types([])));
    assert VirtualSize([P2WPKH], 1, Types([])) >= 0.0;
    assert Ceil(VirtualSize([P2WPKH], 1, Types([]))) >= 0;
  }

  // The members of a batch wait in the table and are worth more than dust at its price; so is the whole batch.
  lemma BatchIsWorthIt(db: Db, all: seq<Withdraw>, fee: NetworkFee, b: Band, maxVout: nat, batch: Batch)
    requires WaitingRows(db, all) && IsBatch(all, fee, b, maxVout, batch.withdrawals) && batch.withdrawals != []
    requires batch.price == BandFee(fee, b) && batch.amount == Sum(WithdrawAmount, batch.withdrawals)
    ensures Payable(db, batch.withdrawals, batch.price) && batch.amount > 0
  {
    var sel := batch.withdrawals;
    BatchIsDistinct(all, fee, b, maxVout, sel);
    ChosenAreTakeable(db, all, sel);
    forall i | 0 <= i < |sel| ensures sel[i] in all && sel[i].amount > GetDustAmount(batch.price) {
      BatchMembersPay(all, fee, b, maxVout, sel, i);
    }
    BatchAmount(sel, batch.price);
  }

  lemma BatchAmount(sel: seq<Withdraw>, price: nat)
    requires sel != [] && sel[0].amount > GetDustAmount(price)
    ensures Sum(WithdrawAmount, sel) > 0
  {
    forall w | w in sel[1..] ensures WithdrawAmount(w) >= 0 {
    }
    SumHead(WithdrawAmount, sel);
    SumNonNegative(WithdrawAmount, sel[1..]);
  }

  lemma OutputsPay(db: Db, env: Chain, p: Params, ws: seq<Withdraw>, tx: Tx)
    requires RawTransaction(env, p).Success? && RawTransaction(env, p).built.tx == tx
    requires FeeBlind(ws) == FeeBlind(p.withdrawals) && p.tasks == [] && Payable(db, ws, p.networkFee)
    ensures exists fee :: PaysInTurn(db, env.net, RequestIds(ws), tx, fee)
  {
    var fee := CalculateFees(p).0;
    ReturnedOutputs(env, p);
    forall i | 0 <= i < |ws|
      ensures var out := WithdrawOutputs(env.net, p.withdrawals, fee, GetDustAmount(p.networkFee)).value[i];
              env.net(ws[i].to) == Some(out.script) && out.value == ws[i].amount - fee
    {
      assert FeeBlind(ws)[i] == FeeBlind(p.withdrawals)[i];
      WithdrawOutputsPay(env.net, p.withdrawals, fee, GetDustAmount(p.networkFee), i);
    }
    assert tx.outputs == Outputs(env.net, p).value;
    assert PaysInTurn(db, env.net, RequestIds(ws), tx, fee);
  }

  lemma CleanedKeyed(db: Db)
    requires Keyed(db)
    ensures Keyed(CleanProcessingWithdraw(db))
  {
    CleanedSameKeys(db);
    SameKeysKeyed(db, CleanProcessingWithdraw(db));
  }

  lemma LaunchedKeyed(db: Db, db': Db, t: Setting, r: Ending)
    requires Keyed(db) && Launched(db, db', t, r)
    ensures Keyed(db')
  {
    if r.Running? {
      CreateKeyed(db, r.n, true);
    }
  }

  // SelectSafeboxTasks: the earliest deadline comes first.
  method EarliestTask(ghost db: Db, tasks: array<Task>) returns (task: Task)
    requires ReadyTasks(db, tasks[..]) && tasks.Length > 0
    modifies tasks
    ensures task in old(tasks[..]) && forall x :: x in old(tasks[..]) ==> task.deadline <= x.deadline
    ensures TasksTakeable(db.tasks, [task.taskId], true)
  {
    ghost var all := tasks[..];
    SortSlice(tasks, Deadline);
    task := tasks[0];
    assert task in multiset(tasks[..]) && task in multiset(all);
    forall x | x in all ensures task.deadline <= x.deadline {
      assert x in multiset(all) && x in multiset(tasks[..]);
      var i :| 0 <= i < tasks.Length && tasks[i] == x;
      assert Deadline(tasks[0]) <= Deadline(tasks[i]);
    }
  }

  // Selects coins for a demand.
  method ChooseCoins(ghost db: Db, utxos: array<Utxo>, d: Demand) returns (r: Result<Selection, NotEnough>, ghost sel: seq<Utxo>)
    requires SpendableRows(db, utxos[..]) && d.amount + d.external > 0
    modifies utxos
    ensures Optimal(old(utxos[..]), sel, d.amount + d.external, d.price)
    ensures r.Ok? <==> Sum(Amount, sel) >= d.amount + d.external
    ensures r.Err? ==> r.error == NotEnough(Sum(Amount, sel), FeeFor(sel, d.receiverTypes, d.outputs, d.price))
    ensures r.Ok? ==> r.value.utxos == sel != [] && r.value.withdrawAmount == d.amount && r.value.witnessSize >= 0
                      && PricedBy(r.value, d.receiverTypes, d.price, d.outputs) && CoinsFree(db.utxos, OutPoints(sel))
  {
    ghost var pool := utxos[..];
    ghost var core, sweep;
    r, core, sweep := SelectOptimalUTXOs(utxos, d.receiverTypes, d.amount, d.external, d.price, d.outputs);
    sel := core + sweep;
    if r.Ok? {
      SelectionIsFree(db, pool, core, sweep, d.amount + d.external, d.price);
      CoveringIsNonempty(sel, d.amount + d.external);
      Pricing.WitnessNonNegative(sel);
    }
  }

  class WalletServer {
    const state: WalletState
    var sigStatus: bool
    var sigFinishHeight: nat

    constructor (state: WalletState)
      ensures this.state == state && !sigStatus && sigFinishHeight == 0
    {
      this.state, sigStatus, sigFinishHeight := state, false, 0;
    }

    // createSendOrder
    method SaveOrder(t: Setting, kind: OrderType, tx: Tx, utxos: seq<Utxo>, ids: seq<nat>, taskIds: seq<nat>)
      returns (r: Ending)
      requires tx.inputs == OutPoints(utxos) && utxos != [] && tx.outputs != []
      requires CoinsFree(state.db.utxos, OutPoints(utxos))
      requires kind == Withdrawal ==> WithdrawsTakeable(state.db.withdraws, ids, true)
      requires kind == Safebox ==> TasksTakeable(state.db.tasks, taskIds, true)
      modifies state
      ensures Launched(old(state.db), state.db, t, r)
      ensures r.NotSaved? || r.Running?
      ensures r.Running? ==> r.tx == tx && r.n.taskIds == taskIds && OrderFor(r.n, t.orderId, t.txidOf(tx), kind, tx, utxos, ids, t.addressOf)
      ensures r.Running? ==>
                && r.n.order == Order(t.orderId, t.txidOf(tx), kind, Aggregating, 0, 0, "") && |r.n.vins| == |utxos|
                && forall i :: 0 <= i < |utxos| ==>
                     r.n.vins[i] == Vin(t.orderId, utxos[i].outPoint, utxos[i].receiverType, Aggregating)
    {
      var n := BuildOrder(t.orderId, t.txidOf(tx), kind, tx, utxos, ids, taskIds, t.addressOf);
      assert n.vins != [] && n.vouts != [];
      var err := state.CreateSendOrder(n, true);
      r := if err.Some? then NotSaved(err.value) else Running(n, tx);
    }

    method Build(t: Setting, p: Params) returns (out: TxBuilder.Outcome, utxos: seq<Utxo>, withdrawals: seq<Withdraw>)
      ensures out == RawTransaction(t.chain, p)
      ensures utxos <= p.utxos && (p.utxos != [] ==> utxos != []) && FeeBlind(withdrawals) == FeeBlind(p.withdrawals)
      ensures out.Success? ==> out.built.tx.inputs == OutPoints(utxos)
    {
      var params := new TransactionParams(p);
      out := CreateRawTransaction(t.chain, params);
      utxos, withdrawals := params.utxos, params.withdrawals;
      BlindBuild(t.chain, p);
    }

    // Builds the transaction of a choice and saves its order.
    method Launch(t: Setting, kind: OrderType, p: Params, taskIds: seq<nat>) returns (r: Ending)
      requires Launchable(state.db, kind, p, taskIds)
      modifies state
      ensures Launched(old(state.db), state.db, t, r) && EndsAs(t, p, r) && r != Ignored
      ensures r.Running? ==> r.n.order.orderType == kind && r.n.taskIds == taskIds
                             && PaysWithdrawals(old(state.db), t.chain.net, r.n, r.tx)
    {
      var out, coins, ws := Build(t, p);
      LaunchFacts(state.db, t, kind, p, taskIds, out, coins, ws);
      match out {
        case NoReturn => r := Hangs;
        case Failed(e) =>
          if kind == Withdrawal && e.WithdrawDustAmount? {
            // Withdrawals that are dust themselves are closed; NothingToClose shows that a batch has none.
            CloseDustWithdrawals(state, ws, p.networkFee);
          }
          r := NotBuilt(e);
        case Success(b) =>
          r := SaveOrder(t, kind, b.tx, coins, RequestIds(ws), taskIds);
      }
    }

    method StartConsolidation(t: Setting, utxos: seq<Utxo>) returns (r: Ending)
      requires SpendableRows(state.db, utxos) && |utxos| >= CONSOLIDATION_TRIGGER_COUNT
      modifies state
      ensures Launched(old(state.db), state.db, t, r) && MergeOutcome(t, utxos, r) && r != Ignored
      ensures r.Running? ==> r.n.order.orderType == Consolidation
    {
      var merge := ChooseMerge(t, utxos);
      if merge.Err? {
        return NotConsolidated(merge.error);
      }
      MergeIsFree(state.db, utxos, t);
      r := Launch(t, Consolidation, MergeParams(t, merge.value), []);
    }

    method StartSafebox(t: Setting, utxos: array<Utxo>, tasks: array<Task>) returns (r: Ending)
      requires SpendableRows(state.db, utxos[..]) && ReadyTasks(state.db, tasks[..]) && tasks.Length > 0
      modifies state, utxos, tasks
      ensures Launched(old(state.db), state.db, t, r) && r != Ignored
      ensures SafeboxOutcome(t, old(utxos[..]), old(tasks[..]), r)
      ensures r.Running? ==> r.n.order.orderType == Safebox && |r.n.taskIds| == 1
    {
      if t.fee.halfHour > t.maxNetworkFee {
        return NoTask;
      }
      var task := EarliestTask(state.db, tasks);
      r := StartDemand(t, Safebox, utxos, TaskDemand(t, task), [task.taskId]);
    }

    // Chooses coins for what is to be paid and launches the order.
    method StartDemand(t: Setting, kind: OrderType, utxos: array<Utxo>, d: Demand, taskIds: seq<nat>) returns (r: Ending)
      requires SpendableRows(state.db, utxos[..]) && Demandable(state.db, kind, d, taskIds)
      modifies state, utxos
      ensures Launched(old(state.db), state.db, t, r) && r != Ignored
      ensures PaidOptimally(t, old(utxos[..]), d, r)
      ensures r.Running? ==> r.n.order.orderType == kind && r.n.taskIds == taskIds
                             && PaysWithdrawals(old(state.db), t.chain.net, r.n, r.tx)
    {
      var chosen, sel := ChooseCoins(state.db, utxos, d);
      if chosen.Err? {
        r := NotFunded(chosen.error);
        assert PaidFrom(t, sel, d, r);
        return;
      }
      var s := chosen.value;
      r := Launch(t, kind, ParamsFor(t, d.ws, d.tasks, s, d.price), taskIds);
      assert PaidFrom(t, sel, d, r);
    }

    method StartWithdrawals(t: Setting, utxos: array<Utxo>, withdraws: array<Withdraw>) returns (r: Ending)
      requires SpendableRows(state.db, utxos[..]) && WaitingRows(state.db, withdraws[..])
      modifies state, utxos, withdraws
      ensures Launched(old(state.db), state.db, t, r) && r != Ignored
      ensures WithdrawalsOutcome(t, old(utxos[..]), old(withdraws[..]), r)
      ensures r.Running? ==> r.n.order.orderType == Withdrawal && PaysWithdrawals(old(state.db), t.chain.net, r.n, r.tx)
    {
      ghost var all := withdraws[..];
      var selected, band := SelectWithdrawals(withdraws, t.fee, t.maxNetworkFee, PolicyOf(t), t.chain.net);
      if selected.Err? {
        assert selected.error.NetworkFeeTooHigh? || selected.error.NoneReady?;
        return NotSelected(selected.error);
      }
      var batch := selected.value;
      BatchIsWorthIt(state.db, all, t.fee, band, WITHDRAW_MAX_VOUT, batch);
      r := StartDemand(t, Withdrawal, utxos, BatchDemand(batch), []);
    }

    // One tick of the wallet: nothing, a clean-up after losing the proposer's role, or a clean-up and a start.
    method InitWithdrawSig(t: Setting) returns (r: Ending)
      requires Keyed(state.db)
      modifies this, state
      ensures sigFinishHeight == old(sigFinishHeight) && Keyed(state.db)
      ensures Ticked(old(state.db), state.db, t, GateOf(t, old(sigStatus), sigFinishHeight), r)
      ensures match GateOf(t, old(sigStatus), sigFinishHeight)
              case Wait => sigStatus == old(sigStatus)
              case StepDown => !sigStatus
              case Go => sigStatus == r.Running? && StartOutcome(CleanProcessingWithdraw(old(state.db)), t, r)
      // It starts exactly when this node proposes, nothing is behind, the fee is fit, both waits are over and no signature
      // is in progress.
      ensures r != Ignored
              <==> && t.isProposer && !t.l2Syncing && !t.btcSyncing && 0 < t.fee.fastest <= t.maxNetworkFee
                   && t.l2Height > t.epochHeight + 5 && t.l2Height > sigFinishHeight + 5 && !old(sigStatus)
      ensures r != Ignored ==> && sigStatus == r.Running? && StartOutcome(CleanProcessingWithdraw(old(state.db)), t, r)
                               && Launched(CleanProcessingWithdraw(old(state.db)), state.db, t, r)
      ensures r == Ignored ==>
                if && !t.isProposer && old(sigStatus) && !t.l2Syncing && !t.btcSyncing && 0 < t.fee.fastest <= t.maxNetworkFee
                   && t.l2Height > t.epochHeight + 5
                then !sigStatus && state.db == CleanProcessingWithdraw(old(state.db))
                else sigStatus == old(sigStatus) && state.db == old(state.db)
    {
      if t.l2Syncing || t.btcSyncing || t.fee.fastest == 0 || t.fee.fastest > t.maxNetworkFee {
        return Ignored;
      }
      if t.l2Height <= t.epochHeight + 5 {
        return Ignored;
      }
      CleanedKeyed(state.db);
      if !t.isProposer {
        if sigStatus && t.l2Height > t.epochHeight + 1 {
          sigStatus := false;
          state.CleanProcessingWithdraw();
        }
        return Ignored;
      }
      if sigStatus || t.l2Height <= sigFinishHeight + 5 {
        return Ignored;
      }
      state.CleanProcessingWithdraw();
      r := Start(t);
      LaunchedKeyed(CleanProcessingWithdraw(old(state.db)), state.db, t, r);
      if r.Running? {
        sigStatus := true;
      }
    }

    method Start(t: Setting) returns (r: Ending)
      requires Keyed(state.db)
      modifies state
      ensures Launched(old(state.db), state.db, t, r) && StartOutcome(old(state.db), t, r) && r != Ignored
      ensures r.Running? ==> PaysWithdrawals(old(state.db), t.chain.net, r.n, r.tx)
    {
      var utxos := GetUtxoCanSpend(state.db);
      r := StartBranch(t, utxos);
    }

    method StartBranch(t: Setting, utxos: array<Utxo>) returns (r: Ending)
      requires Keyed(state.db) && SpendableRows(state.db, utxos[..])
      modifies state, utxos
      ensures Launched(old(state.db), state.db, t, r) && BranchOutcome(old(state.db), t, old(utxos[..]), r) && r != Ignored
      ensures r.Running? ==> PaysWithdrawals(old(state.db), t.chain.net, r.n, r.tx)
    {
      if utxos.Length == 0 {
        return NoCoins;
      }
      if utxos.Length >= CONSOLIDATION_TRIGGER_COUNT && !HasConsolidationInProgress(state.db) {
        r := StartConsolidation(t, utxos[..]);
        return;
      }
      var tasks := GetSafeboxTasks(state.db);
      if tasks.Length > 0 {
        assert tasks[0] in tasks[..];
        r := StartSafebox(t, utxos, tasks);
        return;
      }
      var withdraws := GetWithdrawsCanStart(state.db);
      if withdraws.Length == 0 {
        return NoWithdrawals;
      }
      assert withdraws[0] in withdraws[..];
      r := StartWithdrawals(t, utxos, withdraws);
    }
  }
}
