// The wallet state: every locked method runs one transaction on the tables.  A transaction works on a copy
// that replaces the tables when it succeeds; after an error the tables are as before.
module Wallet {
  import opened Common
  import opened Models
  import opened WalletRows
  import opened OrderSteps
  import opened CoinSteps
  import opened TaskSteps
  import opened WalletLoops
  import Deposit
  import opened DepositTable

  // How a step on the tables shows in the wallet: all of it, or nothing and the error.
  ghost predicate Committed(before: Db, step: Step, after: Db, err: Option<DbError>) {
    match step
    case Ok(d) => after == d && err == None
    case Err(e) => after == before && err == Some(e)
  }

  class WalletState {
    var db: Db

    constructor ()
      ensures db == EMPTY_DB
    {
      db := EMPTY_DB;
    }

    method Commit(r: Step) returns (err: Option<DbError>)
      modifies this
      ensures Committed(old(db), r, db, err)
    {
      if r.Err? {
        return Some(r.error);
      }
      db := r.value;
      err := None;
    }

    // ---------- Withdrawals ----------

    method CreateWithdrawal(w: Withdraw)
      modifies this
      ensures db == OrderSteps.CreateWithdrawal(old(db), w)
    {
      if w.requestId in db.withdraws {
        return;
      }
      var row := w.(txFee := 0, status := Create, orderId := "", txid := "", reason := "");
      db := db.(withdraws := db.withdraws[w.requestId := row]);
    }

    method UpdateWithdrawReplace(id: nat, txPrice: nat) returns (err: Option<DbError>)
      modifies this
      ensures Committed(old(db), OrderSteps.UpdateWithdrawReplace(old(db), id, txPrice), db, err)
    {
      if id !in db.withdraws {
        return Some(NotFound);
      }
      var w := db.withdraws[id];
      if w.status == Create || w.status == Aggregating {
        db := db.(withdraws := db.withdraws[id := w.(txPrice := txPrice)]);
      }
      err := None;
    }

    method UpdateWithdrawCanceling(id: nat) returns (err: Option<DbError>)
      modifies this
      ensures Committed(old(db), OrderSteps.UpdateWithdrawCanceling(old(db), id), db, err)
    {
      if id !in db.withdraws {
        return Some(NotFound);
      }
      var w := db.withdraws[id];
      if w.status == Create || w.status == Aggregating {
        db := db.(withdraws := db.withdraws[id := w.(status := Canceling)]);
      }
      err := None;
    }

    method CloseWithdrawByRequestId(id: nat, reason: string)
      modifies this
      ensures db == CloseWithdraw(old(db), id, reason)
    {
      if id in db.withdraws {
        db := db.(withdraws := db.withdraws[id := db.withdraws[id].(status := Closed, reason := reason)]);
      }
    }

    method UpdateWithdrawCanceled(id: nat)
      modifies this
      ensures db == CloseWithdraw(old(db), id, "canceled")
    {
      CloseWithdrawByRequestId(id, "canceled");
    }

    // ---------- Send orders ----------

    method CreateSendOrder(n: NewOrder, isProposer: bool) returns (err: Option<DbError>)
      modifies this
      ensures Committed(old(db), OrderSteps.CreateSendOrder(old(db), n, isProposer), db, err)
    {
      if n.order.orderId in db.orders {
        return Some(Duplicate);
      }
      var tx := InsertOrder(db, n.order);
      if n.vins == [] || n.vouts == [] {
        return Some(EmptyInsert);
      }
      tx := tx.(vins := tx.vins + n.vins, vouts := tx.vouts + n.vouts);
      var r := MarkCoins(tx, n.coins);
      if r.Ok? && n.order.orderType == Safebox {
        r := MarkTasks(r.value, n.taskIds, n.order, isProposer);
      }
      if r.Ok? && n.order.orderType == Withdrawal {
        r := MarkWithdraws(r.value, n.withdrawIds, n.order, isProposer);
      }
      err := Commit(r);
    }

    method RecoverSendOrder(o: Order, vins: seq<Vin>, vouts: seq<Vout>, withdrawIds: seq<nat>)
      returns (err: Option<DbError>)
      modifies this
      ensures Committed(old(db), OrderSteps.RecoverSendOrder(old(db), o, vins, vouts, withdrawIds), db, err)
    {
      if HasOpenOrder(db, o.txid) {
        return None;
      }
      var tx := RecoverWithdrawRows(db, withdrawIds, o);
      var typed;
      tx, typed := RecoverCoins(tx, vins);
      if o.orderId in tx.orders {
        return Some(Duplicate);
      }
      tx := InsertOrder(tx, o);
      if typed == [] || vouts == [] {
        return Some(EmptyInsert);
      }
      db := tx.(vins := tx.vins + typed, vouts := tx.vouts + vouts);
      err := None;
    }

    method UpdateSendOrderInitlized(txid: string, externalTxId: string)
      modifies this
      ensures db == OrderSteps.UpdateSendOrderInitlized(old(db), txid, externalTxId)
    {
      var id := NewestByTxid(db.orders, db.orderIds, txid);
      if id.None? {
        return;
      }
      var order := db.orders[id.value];
      if order.status == Confirmed || order.status == Processed || order.status == Closed {
        return;
      }
      order := order.(status := Init, externalTxId := externalTxId);
      db := UpdateOtherStatusByOrder(SetOrderRow(db, id.value, order), id.value, Init, true);
    }

    // Rebuilds an unknown order from the message.
    method InsertRecovered(txid: string, rec: Recovery) returns (r: Step)
      ensures r == OrderSteps.InsertRecovered(db, txid, rec)
    {
      if rec.order.None? || rec.coins == [] || rec.vins == [] || rec.vouts == [] {
        return Err(MissingArguments);
      }
      var o := rec.order.value;
      if o.orderId in db.orders {
        return Err(Duplicate);
      }
      r := MarkCoins(InsertOrder(db, o), rec.coins);
      if r.Ok? {
        var tx := r.value.(vins := r.value.vins + OwnedVins(rec.vins, o.orderId));
        r := InitWithdraws(tx, rec.withdrawIds, o, txid);
      }
      if r.Ok? {
        r := Ok(r.value.(vouts := r.value.vouts + OwnedVouts(rec.vouts, o.orderId)));
      }
    }

    method UpdateSendOrderPending(txid: string, externalTxId: string, rec: Recovery) returns (err: Option<DbError>)
      modifies this
      ensures Committed(old(db), OrderSteps.UpdateSendOrderPending(old(db), txid, externalTxId, rec), db, err)
    {
      var found := NewestByTxid(db.orders, db.orderIds, txid);
      var tx, id := db, "";
      if found.Some? {
        id := found.value;
      } else {
        var r := InsertRecovered(txid, rec);
        if r.Err? {
          return Some(r.error);
        }
        tx, id := r.value, rec.order.value.orderId;
      }
      var order := tx.orders[id];
      if order.status != Confirmed && order.status != Processed && order.status != Closed {
        order := order.(status := Pending, externalTxId := externalTxId);
        tx := UpdateOtherStatusByOrder(SetOrderRow(tx, id, order), id, Pending, false);
      }
      db := tx;
      err := None;
    }

    method UpdateSendOrderConfirmed(txid: string, btcBlock: nat) returns (err: Option<DbError>)
      modifies this
      ensures Committed(old(db), OrderSteps.UpdateSendOrderConfirmed(old(db), txid, btcBlock), db, err)
    {
      var id := NewestByTxid(db.orders, db.orderIds, txid);
      if id.Some? {
        var order := db.orders[id.value];
        if order.status == Confirmed || order.status == Processed || order.status == Closed {
          return None;
        }
        order := order.(btcBlock := btcBlock, status := Confirmed);
        var tx := UpdateOtherStatusByOrder(SetOrderRow(db, id.value, order), id.value, Confirmed, false);
        SameVinsOf(db.vins, tx.vins, id.value);
        var r := SpendVins(tx, id.value, order.btcBlock);
        err := Commit(r);
        return;
      }
      // The layer-2 chain may have finished the withdrawals before bitcoin's confirmation is seen.
      var found := exists w | w in db.withdraws :: db.withdraws[w].txid == txid && db.withdraws[w].status == Processed;
      db := UpdateOtherStatusByTxid(db, txid, if found then Processed else Confirmed);
      err := None;
    }

    method UpdateWithdrawInitialized(txid: string, pid: nat) returns (err: Option<DbError>)
      modifies this
      ensures Committed(old(db), OrderSteps.UpdateWithdrawInitialized(old(db), txid, pid), db, err)
    {
      var r := InitializeRows(db, txid, pid);
      err := Commit(r);
    }

    method UpdateWithdrawFinalized(txid: string, pid: nat) returns (err: Option<DbError>)
      modifies this
      ensures Committed(old(db), OrderSteps.UpdateWithdrawFinalized(old(db), txid, pid), db, err)
    {
      var r := FinalizeRows(db, txid, Some(pid));
      err := Commit(r);
    }

    method Close(id: string)
      requires id in db.orders
      modifies this
      ensures db == CloseOrder(old(db), id)
    {
      var tx := ReleaseVins(SetOrderRow(db, id, db.orders[id].(status := Closed)), id);
      tx := UpdateOtherStatusByOrder(tx, id, Closed, true);
      tx := tx.(withdraws := WithdrawsByOrder(tx.withdraws, id, {Aggregating}, Create));
      db := tx.(tasks := TasksByOrder(tx.tasks, id, {Init}, ReceivedOk));
    }

    method CleanProcessingWithdrawByOrderId(id: string)
      modifies this
      ensures db == OrderSteps.CleanProcessingWithdrawByOrderId(old(db), id)
    {
      if id in db.orders && db.orders[id].status == Aggregating {
        Close(id);
      }
    }

    // Returns after the first aggregating order.
    method CleanProcessingWithdraw()
      modifies this
      ensures db == OrderSteps.CleanProcessingWithdraw(old(db))
    {
      var id := FirstInStatus(db.orders, db.orderIds, Aggregating);
      if id.Some? {
        Close(id.value);
        return;
      }
      var tx := db.(withdraws := WithdrawsByStatuses(db.withdraws, {Aggregating}, Create));
      db := UpdateOtherStatusByStatuses(tx, Closed, {Create, Aggregating});
    }

    // ---------- Coins ----------

    method UpdateUtxoStatusProcessed(op: OutPoint) returns (err: Option<DbError>)
      modifies this
      ensures Committed(old(db), CoinSteps.UpdateUtxoStatusProcessed(old(db), op), db, err)
    {
      if op !in db.utxos {
        return Some(NotFound);
      }
      var u := db.utxos[op];
      if u.status == CoinPending || u.status == CoinSpent {
        return Some(BadStatus);
      }
      db := db.(utxos := db.utxos[op := u.(status := CoinProcessed)]);
      err := None;
    }

    method UpdateUtxoStatusSpent(op: OutPoint, btcBlock: nat) returns (err: Option<DbError>)
      modifies this
      ensures Committed(old(db), CoinSteps.UpdateUtxoStatusSpent(old(db), op, btcBlock), db, err)
    {
      if op !in db.utxos {
        return Some(NotFound);
      }
      if db.utxos[op].status != CoinSpent {
        db := db.(utxos := db.utxos[op := db.utxos[op].(status := CoinSpent, spentBlock := btcBlock)]);
      }
      assert old(db.utxos)[op := Spend(old(db.utxos)[op], btcBlock)] == db.utxos;
      err := None;
    }

    method UpdateUtxoStatusSpentByVins(vins: seq<Vin>, btcBlock: nat)
      modifies this
      ensures db == CoinSteps.UpdateUtxoStatusSpentByVins(old(db), vins, btcBlock)
    {
      db := SpendListed(db, vins, btcBlock);
    }

    // A deposit that layer 2 has not reported yet also goes to the deposit table, before the coin is saved.
    method AddUtxo(f: Found, build: ScriptBuilder, deposits: DepositState, deposit: Deposit.Row) returns (err: Option<DbError>)
      modifies this, deposits
      ensures Committed(old(db), CoinSteps.AddUtxo(old(db), f, build), db, err)
      ensures deposits.View() == if SavesDeposit(old(db), f) then Deposit.SaveConfirm(old(deposits.View()), deposit)
                                 else old(deposits.View())
    {
      var u := f.utxo;
      err := None;
      if u.outPoint in db.utxos {
        u := u.(status := db.utxos[u.outPoint].status);
      }
      if u.status == CoinConfirmed {
        if u.outPoint in db.deposits {
          u := u.(source := FromDeposit, status := CoinProcessed);
          if |u.subScript| == 0 && u.receiverType == P2WSH {
            var script := build(db.deposits[u.outPoint].address);
            if script.None? {
              return Some(BadScript);
            }
            u := u.(subScript := script.value);
          }
        } else if f.isDeposit {
          if f.noWitnessSize < f.minSize || f.noWitnessSize > f.maxSize {
            return;
          }
          deposits.SaveConfirmDeposit(deposit);
        }
      }
      db := db.(utxos := db.utxos[u.outPoint := u]);
    }

    method UpdateUtxoSubScript(op: OutPoint, evmAddr: string, build: ScriptBuilder) returns (err: Option<DbError>)
      modifies this
      ensures Committed(old(db), CoinSteps.UpdateUtxoSubScript(old(db), op, evmAddr, build), db, err)
    {
      var script := build(evmAddr);
      if script.None? {
        return Some(BadScript);
      }
      if op !in db.utxos {
        return Some(NotFound);
      }
      var tx := db.(utxos := db.utxos[op := db.utxos[op].(subScript := script.value)]);
      if op in tx.deposits {
        tx := tx.(deposits := tx.deposits[op := tx.deposits[op].(needFetchSubScript := false)]);
      }
      db := tx;
      err := None;
    }

    method AddDepositResult(op: OutPoint, address: string, amount: nat, blockHash: string)
      modifies this
      ensures db == CoinSteps.AddDepositResult(old(db), op, address, amount, blockHash)
    {
      var need := op !in db.utxos;
      if op in db.utxos {
        var u := db.utxos[op];
        if u.receiverType == P2WSH && |u.subScript| == 0 {
          need := true;
        }
        if u.status == CoinConfirmed || u.status == CoinUnconfirm {
          db := db.(utxos := db.utxos[op := u.(status := CoinProcessed)]);
        }
      }
      if op in db.deposits {
        if db.deposits[op].needFetchSubScript != need {
          db := db.(deposits := db.deposits[op := db.deposits[op].(needFetchSubScript := need)]);
        }
        assert db.deposits == old(db.deposits)[op := old(db.deposits)[op].(needFetchSubScript := need)];
        return;
      }
      db := db.(deposits := db.deposits[op := DepositResult(address, amount, blockHash, need)]);
    }

    // ---------- Safebox tasks ----------

    method CreateSafeboxTask(t: Task) returns (err: Option<DbError>)
      modifies this
      ensures Committed(old(db), TaskSteps.CreateSafeboxTask(old(db), t), db, err)
    {
      if FirstTask(db.tasks, db.taskIds, ProcessingByAddress(t.depositAddress)).Some? {
        return Some(BadStatus);
      }
      if t.taskId in db.tasks {
        return Some(Duplicate);
      }
      var row := t.(status := Create, orderId := "", fundingTxid := "", fundingOutIndex := 0,
                    timelockTxid := "", timelockOutIndex := 0);
      db := db.(tasks := db.tasks[t.taskId := row], taskIds := db.taskIds + [t.taskId]);
      err := None;
    }

    method UpdateSafeboxTaskCancelled(taskId: nat)
      modifies this
      ensures db == TaskSteps.UpdateSafeboxTaskCancelled(old(db), taskId)
    {
      if IsProcessing(db, taskId) {
        db := db.(tasks := db.tasks[taskId := db.tasks[taskId].(status := Closed)]);
      }
    }

    method UpdateSafeboxTaskCompleted(taskId: nat) returns (err: Option<DbError>)
      modifies this
      ensures Committed(old(db), TaskSteps.UpdateSafeboxTaskCompleted(old(db), taskId), db, err)
    {
      if taskId !in db.tasks || db.tasks[taskId].status != Processed {
        return Some(NotFound);
      }
      db := db.(tasks := db.tasks[taskId := db.tasks[taskId].(status := Completed)]);
      err := None;
    }

    method UpdateSafeboxTaskProcessed(taskId: nat) returns (err: Option<DbError>)
      modifies this
      ensures Committed(old(db), TaskSteps.UpdateSafeboxTaskProcessed(old(db), taskId), db, err)
    {
      if !IsProcessing(db, taskId) {
        return Some(NotFound);
      }
      var t := db.tasks[taskId];
      if t.status != Confirmed && t.status != InitOk {
        return Some(BadStatus);
      }
      var tx := SetTask(db, taskId, t.(status := Processed));
      var r := FinalizeRows(tx, t.timelockTxid, None);
      err := Commit(r);
    }

    method UpdateSafeboxTaskInitOK(taskId: nat, timelockTxid: string, timelockOutIndex: nat) returns (err: Option<DbError>)
      modifies this
      ensures Committed(old(db), TaskSteps.UpdateSafeboxTaskInitOK(old(db), taskId, timelockTxid, timelockOutIndex), db, err)
    {
      if !IsProcessing(db, taskId) {
        return Some(NotFound);
      }
      var t := db.tasks[taskId];
      if t.status != Init && t.status != ReceivedOk && t.status != Received && t.status != Create {
        return Some(BadStatus);
      }
      var tx := SetTask(db, taskId, t.(timelockTxid := timelockTxid, timelockOutIndex := timelockOutIndex, status := InitOk));
      var id := NewestByTxid(tx.orders, tx.orderIds, timelockTxid);
      if id.Some? {
        var order := tx.orders[id.value];
        if order.status != Confirmed && order.status != Processed && order.status != Closed {
          tx := SetOrderRow(tx, id.value, order.(status := Init));
          tx := UpdateOtherStatusByOrder(tx, id.value, Init, true);
        }
      }
      db := tx;
      err := None;
    }

    method UpdateSafeboxTaskInit(timelockAddress: string, timelockTxid: string, timelockOutIndex: nat)
      returns (err: Option<DbError>)
      modifies this
      ensures Committed(old(db), TaskSteps.UpdateSafeboxTaskInit(old(db), timelockAddress, timelockTxid, timelockOutIndex), db, err)
    {
      var id := FirstTask(db.tasks, db.taskIds, ProcessingByTimelockAddress(timelockAddress));
      if id.None? {
        return Some(NotFound);
      }
      var t := db.tasks[id.value];
      if t.status != ReceivedOk && t.status != Received && t.status != Create {
        return Some(BadStatus);
      }
      db := SetTask(db, id.value, t.(timelockTxid := timelockTxid, timelockOutIndex := timelockOutIndex, status := Init));
      err := None;
    }

    method UpdateSafeboxTaskReceivedOK(taskId: nat, fundingTxid: string, txOut: nat) returns (err: Option<DbError>)
      modifies this
      ensures Committed(old(db), TaskSteps.UpdateSafeboxTaskReceivedOK(old(db), taskId, fundingTxid, txOut), db, err)
    {
      if !IsProcessing(db, taskId) {
        return Some(NotFound);
      }
      var t := db.tasks[taskId];
      if t.status != Received && t.status != Create {
        return Some(BadStatus);
      }
      db := SetTask(db, taskId, t.(fundingTxid := fundingTxid, fundingOutIndex := txOut, status := ReceivedOk));
      err := None;
    }

    method UpdateSafeboxTaskReceived(txid: string, evmAddr: string, txOut: nat, amount: nat, now: int)
      modifies this
      ensures db == TaskSteps.UpdateSafeboxTaskReceived(old(db), txid, evmAddr, txOut, amount, now)
    {
      var id := FirstTask(db.tasks, db.taskIds, ProcessingByAddress(evmAddr));
      if id.None? {
        return;
      }
      var t := db.tasks[id.value];
      if t.status != Create {
        return;
      }
      if now > t.deadline {
        db := SetTask(db, id.value, t.(status := Closed));
        return;
      }
      if amount == t.amount {
        db := SetTask(db, id.value, t.(status := Received, fundingTxid := txid, fundingOutIndex := txOut));
      }
    }

    method RevertSafeboxTaskToReceivedOKByTimelockTxid(timelockTxid: string) returns (err: Option<DbError>)
      modifies this
      ensures Committed(old(db), RevertSafeboxTask(old(db), timelockTxid), db, err)
    {
      var id := FirstTask(db.tasks, db.taskIds, InitByTimelockTxid(timelockTxid));
      if id.None? {
        return Some(NotFound);
      }
      db := SetTask(db, id.value, db.tasks[id.value].(status := ReceivedOk));
      err := None;
    }
  }
}
