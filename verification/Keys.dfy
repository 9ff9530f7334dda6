// Rows of the wallet tables carry their own keys, in every reachable database.
module Keys {
  import opened Common
  import opened Models
  import opened WalletRows
  import opened OrderSteps
  import opened CoinSteps
  import opened TaskSteps
  import opened WalletRuns

  ghost predicate KeyedTasks(db: Db) {
    && (forall id :: id in db.tasks ==> db.tasks[id].taskId == id)
    && Distinct(db.taskIds) && forall id :: id in db.taskIds <==> id in db.tasks
  }

  // An order id that a row may carry: none yet, or that of a known order.
  predicate Known(db: Db, orderId: string) {
    orderId == "" || orderId in db.orders
  }

  // Withdrawals and tasks carry ids of known orders only.
  ghost predicate OrdersKnown(db: Db) {
    && (forall id :: id in db.withdraws ==> Known(db, db.withdraws[id].orderId))
    && (forall id :: id in db.tasks ==> Known(db, db.tasks[id].orderId))
  }

  // Coins, withdrawals and tasks are stored under their own keys, the task list names every task once, and rows carry
  // ids of known orders.
  ghost predicate Keyed(db: Db) {
    && OrdersKnown(db)
    && (forall op :: op in db.utxos ==> db.utxos[op].outPoint == op)
    && (forall id :: id in db.withdraws ==> db.withdraws[id].requestId == id)
    && KeyedTasks(db)
  }

  // The same rows up to what steps may write into them, table by table.
  ghost predicate SameCoins(a: map<OutPoint, Utxo>, b: map<OutPoint, Utxo>) {
    b.Keys == a.Keys && forall op :: op in a ==> b[op].outPoint == a[op].outPoint
  }

  ghost predicate SameWithdraws(a: map<nat, Withdraw>, b: map<nat, Withdraw>) {
    b.Keys == a.Keys && forall id :: id in a ==> b[id].requestId == a[id].requestId && b[id].orderId == a[id].orderId
  }

  ghost predicate SameTasks(a: map<nat, Task>, b: map<nat, Task>) {
    b.Keys == a.Keys && forall id :: id in a ==> b[id].taskId == a[id].taskId && b[id].orderId == a[id].orderId
  }

  // No coin, order, withdrawal or task is added, and none changes its key or its order.
  ghost predicate SameKeys(db: Db, db': Db) {
    && SameCoins(db.utxos, db'.utxos) && SameWithdraws(db.withdraws, db'.withdraws) && SameTasks(db.tasks, db'.tasks)
    && db'.taskIds == db.taskIds && db'.orders.Keys == db.orders.Keys
  }

  lemma SameKeysKeyed(db: Db, db': Db)
    requires Keyed(db) && SameKeys(db, db')
    ensures Keyed(db')
  {
  }

  lemma {:induction false} InitializeSameKeys(db: Db, k: nat, txid: string, newest: bool, pid: nat)
    requires k <= |db.orderIds|
    ensures var r := InitializeOrders(db, k, txid, newest, pid); r.Ok? ==> SameKeys(db, r.value)
    decreases k
  {
    if k > 0 {
      var id := db.orderIds[k - 1];
      if id !in db.orders || db.orders[id].txid != txid {
        InitializeSameKeys(db, k - 1, txid, newest, pid);
      } else {
        var r := InitializeOrder(db, id, newest, pid);
        if r.Ok? {
          InitializeOneSameKeys(db, id, newest, pid);
          InitializeSameKeys(r.value, k - 1, txid, false, pid);
        }
      }
    }
  }

  lemma InitializeOneRows(db: Db, id: string, newest: bool, pid: nat)
    requires id in db.orders && InitializeOrder(db, id, newest, pid).Ok?
    ensures SameWithdraws(db.withdraws, InitializeOrder(db, id, newest, pid).value.withdraws)
  {
  }

  lemma InitializeOneCoins(db: Db, id: string, newest: bool, pid: nat)
    requires id in db.orders && InitializeOrder(db, id, newest, pid).Ok?
    ensures SameCoins(db.utxos, InitializeOrder(db, id, newest, pid).value.utxos)
  {
  }

  lemma InitializeOneSameKeys(db: Db, id: string, newest: bool, pid: nat)
    requires id in db.orders && InitializeOrder(db, id, newest, pid).Ok?
    ensures SameKeys(db, InitializeOrder(db, id, newest, pid).value)
    ensures InitializeOrder(db, id, newest, pid).value.orderIds == db.orderIds
  {
    var db' := InitializeOrder(db, id, newest, pid).value;
    InitializeOneRows(db, id, newest, pid);
    InitializeOneCoins(db, id, newest, pid);
    assert db'.tasks == db.tasks && db'.taskIds == db.taskIds;
  }

  lemma {:induction false} FinalizeSameKeys(db: Db, k: nat, txid: string, pid: Option<nat>)
    requires k <= |db.orderIds|
    ensures var r := FinalizeOrders(db, k, txid, pid); r.Ok? ==> SameKeys(db, r.value)
    decreases k
  {
    if k > 0 {
      var id := db.orderIds[k - 1];
      if id !in db.orders || db.orders[id].txid != txid {
        FinalizeSameKeys(db, k - 1, txid, pid);
      } else {
        var r := FinalizeOrder(db, id, pid);
        if r.Ok? {
          FinalizeOneSameKeys(db, id, pid);
          FinalizeSameKeys(r.value, k - 1, txid, pid);
        }
      }
    }
  }

  lemma FinalizeOneRows(db: Db, id: string, pid: Option<nat>)
    requires id in db.orders && FinalizeOrder(db, id, pid).Ok?
    ensures SameWithdraws(db.withdraws, FinalizeOrder(db, id, pid).value.withdraws)
    ensures SameCoins(db.utxos, FinalizeOrder(db, id, pid).value.utxos)
  {
  }

  lemma FinalizeOneSameKeys(db: Db, id: string, pid: Option<nat>)
    requires id in db.orders && FinalizeOrder(db, id, pid).Ok?
    ensures SameKeys(db, FinalizeOrder(db, id, pid).value)
    ensures FinalizeOrder(db, id, pid).value.orderIds == db.orderIds
  {
    var db' := FinalizeOrder(db, id, pid).value;
    FinalizeOneRows(db, id, pid);
    assert db'.tasks == db.tasks && db'.taskIds == db.taskIds;
  }

  lemma ByTxidSameKeys(db: Db, txid: string, status: Status)
    ensures SameKeys(db, UpdateOtherStatusByTxid(db, txid, status))
  {
    ByTxidSameTasks(db.tasks, txid, status);
    assert SameWithdraws(db.withdraws, WithdrawsByTxid(db.withdraws, txid, status));
  }

  lemma ByTxidSameTasks(tasks: map<nat, Task>, txid: string, status: Status)
    ensures SameTasks(tasks, TasksByTimelockTxid(tasks, txid, status))
  {
  }

  lemma FinalizeTxidSameKeys(db: Db, txid: string, pid: Option<nat>)
    ensures SameKeys(db, After(db, FinalizeTxid(db, txid, pid)))
  {
    var r := FinalizeOrders(db, |db.orderIds|, txid, pid);
    FinalizeSameKeys(db, |db.orderIds|, txid, pid);
    if HasOrder(db, txid) && r.Ok? {
      ByTxidSameKeys(r.value, txid, Processed);
      SameKeysTransitive(db, r.value, UpdateOtherStatusByTxid(r.value, txid, Processed));
    }
  }

  lemma SameKeysTransitive(a: Db, b: Db, c: Db)
    requires SameKeys(a, b) && SameKeys(b, c)
    ensures SameKeys(a, c)
  {
  }

  lemma CreateKeyed(db: Db, n: NewOrder, isProposer: bool)
    requires Keyed(db)
    ensures Keyed(After(db, CreateSendOrder(db, n, isProposer)))
  {
  }

  lemma RecoverKeyed(db: Db, o: Order, vins: seq<Vin>, vouts: seq<Vout>, ids: seq<nat>)
    requires Keyed(db)
    ensures Keyed(After(db, RecoverSendOrder(db, o, vins, vouts, ids)))
  {
  }

  lemma SetPendingSameKeys(db: Db, id: string, ext: string)
    requires id in db.orders
    ensures SameKeys(db, SetPending(db, id, ext))
  {
  }

  lemma InsertKeyed(db: Db, txid: string, rec: Recovery)
    requires Keyed(db)
    ensures Keyed(After(db, InsertRecovered(db, txid, rec)))
  {
  }

  lemma PendingKeyed(db: Db, txid: string, ext: string, rec: Recovery)
    requires Keyed(db)
    ensures Keyed(After(db, UpdateSendOrderPending(db, txid, ext, rec)))
  {
    var newest := NewestByTxid(db.orders, db.orderIds, txid);
    var inserted := InsertRecovered(db, txid, rec);
    if newest.Some? {
      SetPendingSameKeys(db, newest.value, ext);
      SameKeysKeyed(db, SetPending(db, newest.value, ext));
    } else if inserted.Ok? {
      var id := rec.order.value.orderId;
      InsertKeyed(db, txid, rec);
      SetPendingSameKeys(inserted.value, id, ext);
      SameKeysKeyed(inserted.value, SetPending(inserted.value, id, ext));
    }
  }

  lemma ConfirmOneSameKeys(db: Db, id: string, block: nat)
    requires id in db.orders && ConfirmOrder(db, id, block).Ok?
    ensures SameKeys(db, ConfirmOrder(db, id, block).value)
  {
  }

  lemma ConfirmedSameKeys(db: Db, txid: string, block: nat)
    ensures SameKeys(db, After(db, UpdateSendOrderConfirmed(db, txid, block)))
  {
    var newest := NewestByTxid(db.orders, db.orderIds, txid);
    if newest.None? {
      ByTxidSameKeys(db, txid, Confirmed);
      ByTxidSameKeys(db, txid, Processed);
    } else if ConfirmOrder(db, newest.value, block).Ok? {
      ConfirmOneSameKeys(db, newest.value, block);
    }
  }

  lemma CleanedSameKeys(db: Db)
    ensures SameKeys(db, CleanProcessingWithdraw(db))
  {
    var id := FirstInStatus(db.orders, db.orderIds, Aggregating);
    if id.Some? {
      CloseSameKeys(db, id.value);
    }
  }

  lemma AddedOrderKeyed(db: Db, e: Event)
    requires Keyed(db) && (e.OrderCreated? || e.OrderRecovered? || e.OrderPending?)
    ensures Keyed(After(db, TryOrder(db, e)))
  {
    match e {
      case OrderCreated(n, p) => CreateKeyed(db, n, p);
      case OrderRecovered(o, vins, vouts, ids) => RecoverKeyed(db, o, vins, vouts, ids);
      case OrderPending(txid, ext, rec) => PendingKeyed(db, txid, ext, rec);
    }
  }

  lemma OrderProgressKeys(db: Db, e: Event)
    requires e.OrderInitialized? || e.OrderConfirmed? || e.WithdrawInitialized? || e.WithdrawFinalized?
    ensures SameKeys(db, After(db, TryOrder(db, e)))
  {
    match e {
      case OrderInitialized(txid, ext) => InitlizedSameKeys(db, txid, ext);
      case OrderConfirmed(txid, block) => ConfirmedSameKeys(db, txid, block);
      case WithdrawInitialized(txid, pid) => InitializeSameKeys(db, |db.orderIds|, txid, true, pid);
      case WithdrawFinalized(txid, pid) => FinalizeTxidSameKeys(db, txid, Some(pid));
    }
  }

  lemma InitlizedSameKeys(db: Db, txid: string, ext: string)
    ensures SameKeys(db, UpdateSendOrderInitlized(db, txid, ext))
  {
  }

  lemma CloseSameKeys(db: Db, id: string)
    requires id in db.orders
    ensures SameKeys(db, CloseOrder(db, id))
  {
  }

  lemma CleanEventKeys(db: Db, e: Event)
    requires e.CleanedById? || e.Cleaned?
    ensures SameKeys(db, After(db, TryOrder(db, e)))
  {
    match e {
      case CleanedById(id) => if id in db.orders { CloseSameKeys(db, id); }
      case Cleaned => CleanedSameKeys(db);
    }
  }

  lemma CoinEventKeyed(build: ScriptBuilder, db: Db, e: Event)
    requires IsCoinEvent(e) && Keyed(db)
    ensures Keyed(After(db, TryCoin(build, db, e)))
  {
    match e {
      case CoinFound(f) => CoinFoundKeyed(build, db, f);
      case CoinScripted(op, addr) => CoinScriptedKeyed(build, db, op, addr);
      case DepositSeen(op, address, amount, hash) => DepositSeenKeyed(db, op, address, amount, hash);
      case CoinSetProcessed(op) =>
      case CoinSetSpent(op, block) =>
      case CoinsSpent(vins, block) =>
    }
  }

  lemma SetCoinKeyed(db: Db, u: Utxo)
    requires Keyed(db)
    ensures Keyed(SetCoin(db, u))
  {
  }

  lemma CoinFoundKeyed(build: ScriptBuilder, db: Db, f: Found)
    requires Keyed(db)
    ensures Keyed(After(db, AddUtxo(db, f, build)))
  {
    forall u ensures Keyed(SetCoin(db, u)) {
      SetCoinKeyed(db, u);
    }
  }

  lemma CoinScriptedKeyed(build: ScriptBuilder, db: Db, op: OutPoint, addr: string)
    requires Keyed(db)
    ensures Keyed(After(db, UpdateUtxoSubScript(db, op, addr, build)))
  {
  }

  lemma DepositSeenKeyed(db: Db, op: OutPoint, address: string, amount: nat, hash: string)
    requires Keyed(db)
    ensures Keyed(AddDepositResult(db, op, address, amount, hash))
  {
  }

  lemma SetWithdrawKeyed(db: Db, id: nat, w: Withdraw)
    requires Keyed(db) && w.requestId == id && Known(db, w.orderId)
    ensures Keyed(db.(withdraws := db.withdraws[id := w]))
  {
  }

  lemma WithdrawEventKeyed(db: Db, e: Event)
    requires IsWithdrawEvent(e) && Keyed(db)
    ensures Keyed(After(db, TryWithdraw(db, e)))
  {
    match e {
      case WithdrawCreated(w) =>
        SetWithdrawKeyed(db, w.requestId, w.(txFee := 0, status := Create, orderId := "", txid := "", reason := ""));
      case WithdrawReplaced(id, txPrice) =>
        if id in db.withdraws { SetWithdrawKeyed(db, id, db.withdraws[id].(txPrice := txPrice)); }
      case WithdrawCanceling(id) =>
        if id in db.withdraws { SetWithdrawKeyed(db, id, db.withdraws[id].(status := Canceling)); }
      case WithdrawClosed(id, reason) =>
        if id in db.withdraws { SetWithdrawKeyed(db, id, db.withdraws[id].(status := Closed, reason := reason)); }
    }
  }

  lemma NewTaskKeyed(db: Db, t: Task)
    requires Keyed(db) && CreateSafeboxTask(db, t).Ok?
    ensures Keyed(CreateSafeboxTask(db, t).value)
  {
    var db' := CreateSafeboxTask(db, t).value;
    assert db'.taskIds == db.taskIds + [t.taskId];
    assert forall id :: id in db'.taskIds <==> id in db.taskIds || id == t.taskId;
  }

  lemma TaskEventKeyed(build: ScriptBuilder, db: Db, e: Event)
    requires IsTaskEvent(e) && Keyed(db)
    ensures Keyed(Apply(build, db, e))
  {
    if e.TaskProcessed? {
      TaskProcessedSameKeys(db, e.taskId);
      SameKeysKeyed(db, Apply(build, db, e));
    } else if e.TaskCreated? {
      if CreateSafeboxTask(db, e.t).Ok? {
        NewTaskKeyed(db, e.t);
      }
    } else if e.TaskInitOk? {
      TaskInitOkSameKeys(db, e.taskId, e.timelockTxid, e.timelockOutIndex);
      SameKeysKeyed(db, Apply(build, db, e));
    } else if e.TaskReceived? {
      ReceivedSameKeys(db, e.txid, e.evmAddr, e.txOut, e.amount, e.now);
      SameKeysKeyed(db, Apply(build, db, e));
    } else if e.TaskInit? || e.TaskReverted? {
      TaskByQueryKeys(db, e);
      SameKeysKeyed(db, Apply(build, db, e));
    } else {
      TaskByIdKeys(db, e);
      SameKeysKeyed(db, Apply(build, db, e));
    }
  }

  lemma TaskProcessedSameKeys(db: Db, taskId: nat)
    ensures SameKeys(db, After(db, UpdateSafeboxTaskProcessed(db, taskId)))
  {
    if IsProcessing(db, taskId) {
      var d := SetTask(db, taskId, db.tasks[taskId].(status := Processed));
      FinalizeTxidSameKeys(d, db.tasks[taskId].timelockTxid, None);
    }
  }

  lemma SetTaskSameKeys(db: Db, id: nat, t: Task)
    requires id in db.tasks && t.taskId == db.tasks[id].taskId && t.orderId == db.tasks[id].orderId
    ensures SameKeys(db, SetTask(db, id, t))
  {
  }

  lemma AcknowledgedSameKeys(db: Db, id: string)
    requires id in db.orders
    ensures SameKeys(db, UpdateOtherStatusByOrder(db.(orders := db.orders[id := db.orders[id].(status := Init)]), id, Init, true))
  {
  }

  lemma TaskInitOkSameKeys(db: Db, taskId: nat, txid: string, out: nat)
    ensures SameKeys(db, After(db, UpdateSafeboxTaskInitOK(db, taskId, txid, out)))
  {
    if UpdateSafeboxTaskInitOK(db, taskId, txid, out).Ok? {
      var t := db.tasks[taskId].(timelockTxid := txid, timelockOutIndex := out, status := InitOk);
      var d, newest := SetTask(db, taskId, t), NewestByTxid(db.orders, db.orderIds, txid);
      SetTaskSameKeys(db, taskId, t);
      if newest.Some? {
        AcknowledgedSameKeys(d, newest.value);
        SameKeysTransitive(db, d, UpdateOtherStatusByOrder(
          d.(orders := d.orders[newest.value := d.orders[newest.value].(status := Init)]), newest.value, Init, true));
      }
    }
  }

  lemma ReceivedSameKeys(db: Db, txid: string, addr: string, out: nat, amount: nat, now: int)
    ensures SameKeys(db, UpdateSafeboxTaskReceived(db, txid, addr, out, amount, now))
  {
    var id := FirstTask(db.tasks, db.taskIds, ProcessingByAddress(addr));
    if id.Some? {
      var t := db.tasks[id.value];
      SetTaskSameKeys(db, id.value, t.(status := Closed));
      SetTaskSameKeys(db, id.value, t.(status := Received, fundingTxid := txid, fundingOutIndex := out));
    }
  }

  lemma TaskByQueryKeys(db: Db, e: Event)
    requires e.TaskInit? || e.TaskReverted?
    ensures SameKeys(db, After(db, TryTask(db, e)))
  {
    match e {
      case TaskInit(address, txid, out) =>
        var id := FirstTask(db.tasks, db.taskIds, ProcessingByTimelockAddress(address));
        if id.Some? {
          SetTaskSameKeys(db, id.value, db.tasks[id.value].(timelockTxid := txid, timelockOutIndex := out, status := Init));
        }
      case TaskReverted(txid) =>
        var id := FirstTask(db.tasks, db.taskIds, InitByTimelockTxid(txid));
        if id.Some? {
          SetTaskSameKeys(db, id.value, db.tasks[id.value].(status := ReceivedOk));
        }
    }
  }

  lemma TaskByIdKeys(db: Db, e: Event)
    requires e.TaskCancelled? || e.TaskCompleted? || e.TaskReceivedOk?
    ensures SameKeys(db, After(db, TryTask(db, e)))
  {
    if e.taskId in db.tasks {
      var t := db.tasks[e.taskId];
      match e {
        case TaskCancelled(id) => SetTaskSameKeys(db, id, t.(status := Closed));
        case TaskCompleted(id) => SetTaskSameKeys(db, id, t.(status := Completed));
        case TaskReceivedOk(id, txid, out) =>
          SetTaskSameKeys(db, id, t.(fundingTxid := txid, fundingOutIndex := out, status := ReceivedOk));
      }
    }
  }

  lemma KeyedStep(build: ScriptBuilder, db: Db, e: Event)
    requires Keyed(db)
    ensures Keyed(Apply(build, db, e))
  {
    if IsTaskEvent(e) {
      TaskEventKeyed(build, db, e);
    } else if IsCoinEvent(e) {
      CoinEventKeyed(build, db, e);
    } else if IsWithdrawEvent(e) {
      WithdrawEventKeyed(db, e);
    } else if e.OrderCreated? || e.OrderRecovered? || e.OrderPending? {
      AddedOrderKeyed(db, e);
    } else if e.CleanedById? || e.Cleaned? {
      CleanEventKeys(db, e);
      SameKeysKeyed(db, Apply(build, db, e));
    } else {
      OrderProgressKeys(db, e);
      SameKeysKeyed(db, Apply(build, db, e));
    }
  }

  lemma {:induction false} ReachableKeyed(build: ScriptBuilder, db: Db, es: seq<Event>)
    requires Keyed(db)
    ensures Keyed(Run(build, db, es))
    decreases |es|
  {
    if es != [] {
      KeyedStep(build, db, es[0]);
      ReachableKeyed(build, Apply(build, db, es[0]), es[1..]);
    }
  }
}
