// The life cycle of wallet outputs over all steps, recovery included.
module CoinRanks {
  import opened Common
  import opened Models
  import opened WalletRows
  import opened OrderSteps
  import opened CoinSteps
  import opened TaskSteps
  import opened WalletRuns
  import opened OrderLaws

  // No coin disappears or falls back.
  ghost predicate Advances(before: map<OutPoint, Utxo>, after: map<OutPoint, Utxo>) {
    forall op :: op in before ==> op in after && Rank(before[op].status) <= Rank(after[op].status)
  }

  // A spent coin keeps all but its script, unless it is found again.
  ghost predicate KeepsSpent(before: map<OutPoint, Utxo>, after: map<OutPoint, Utxo>, found: set<OutPoint>) {
    forall op :: op in before && before[op].status == CoinSpent && op !in found ==>
      op in after && after[op] == before[op].(subScript := after[op].subScript)
  }

  // The coin that a step finds on the chain.
  function FoundIn(e: Event): set<OutPoint> {
    if e.CoinFound? then {e.found.utxo.outPoint} else {}
  }

  lemma {:induction false} InitializeAdvances(db: Db, k: nat, txid: string, newest: bool, pid: nat)
    requires k <= |db.orderIds|
    ensures var r := InitializeOrders(db, k, txid, newest, pid);
            r.Ok? ==> Advances(db.utxos, r.value.utxos) && KeepsSpent(db.utxos, r.value.utxos, {})
    decreases k
  {
    if k > 0 {
      var id := db.orderIds[k - 1];
      if id !in db.orders || db.orders[id].txid != txid {
        InitializeAdvances(db, k - 1, txid, newest, pid);
      } else {
        var r := InitializeOrder(db, id, newest, pid);
        if r.Ok? {
          InitializeOneAdvances(db, id, newest, pid);
          InitializeAdvances(r.value, k - 1, txid, false, pid);
        }
      }
    }
  }

  lemma InitializeOneAdvances(db: Db, id: string, newest: bool, pid: nat)
    requires id in db.orders && InitializeOrder(db, id, newest, pid).Ok?
    ensures Advances(db.utxos, InitializeOrder(db, id, newest, pid).value.utxos)
    ensures KeepsSpent(db.utxos, InitializeOrder(db, id, newest, pid).value.utxos, {})
  {
  }

  lemma FinalizeOneAdvances(db: Db, id: string, pid: Option<nat>)
    requires id in db.orders
    ensures var r := FinalizeOrder(db, id, pid);
            r.Ok? ==> Advances(db.utxos, r.value.utxos) && KeepsSpent(db.utxos, r.value.utxos, {})
  {
  }

  lemma {:induction false} FinalizeAdvances(db: Db, k: nat, txid: string, pid: Option<nat>)
    requires k <= |db.orderIds|
    ensures var r := FinalizeOrders(db, k, txid, pid);
            r.Ok? ==> Advances(db.utxos, r.value.utxos) && KeepsSpent(db.utxos, r.value.utxos, {})
    decreases k
  {
    if k > 0 {
      var id := db.orderIds[k - 1];
      if id !in db.orders || db.orders[id].txid != txid {
        FinalizeAdvances(db, k - 1, txid, pid);
      } else {
        FinalizeOneAdvances(db, id, pid);
        var r := FinalizeOrder(db, id, pid);
        if r.Ok? {
          FinalizeAdvances(r.value, k - 1, txid, pid);
        }
      }
    }
  }

  lemma CreateAdvances(db: Db, n: NewOrder, isProposer: bool)
    ensures var r := CreateSendOrder(db, n, isProposer);
            r.Ok? ==> Advances(db.utxos, r.value.utxos) && KeepsSpent(db.utxos, r.value.utxos, {})
  {
  }

  lemma RecoverAdvances(db: Db, o: Order, vins: seq<Vin>, vouts: seq<Vout>, ids: seq<nat>)
    ensures var r := RecoverSendOrder(db, o, vins, vouts, ids);
            r.Ok? ==> Advances(db.utxos, r.value.utxos) && KeepsSpent(db.utxos, r.value.utxos, {})
  {
  }

  lemma InsertAdvances(db: Db, txid: string, rec: Recovery)
    ensures var r := InsertRecovered(db, txid, rec);
            r.Ok? ==> Advances(db.utxos, r.value.utxos) && KeepsSpent(db.utxos, r.value.utxos, {})
  {
  }

  lemma MarkPendingCoins(db: Db, id: string, ext: string)
    requires id in db.orders
    ensures SetPending(db, id, ext).utxos == db.utxos
  {
  }

  lemma PendingAdvances(db: Db, txid: string, ext: string, rec: Recovery)
    ensures var r := UpdateSendOrderPending(db, txid, ext, rec);
            r.Ok? ==> Advances(db.utxos, r.value.utxos) && KeepsSpent(db.utxos, r.value.utxos, {})
  {
    match NewestByTxid(db.orders, db.orderIds, txid)
    case Some(id) => MarkPendingCoins(db, id, ext);
    case None =>
      InsertAdvances(db, txid, rec);
      var inserted := InsertRecovered(db, txid, rec);
      if inserted.Ok? {
        MarkPendingCoins(inserted.value, rec.order.value.orderId, ext);
      }
  }

  lemma ConfirmedAdvances(db: Db, txid: string, block: nat)
    ensures var r := UpdateSendOrderConfirmed(db, txid, block);
            r.Ok? ==> Advances(db.utxos, r.value.utxos) && KeepsSpent(db.utxos, r.value.utxos, {})
  {
  }

  lemma AddUtxoAdvances(db: Db, f: Found, build: ScriptBuilder)
    ensures var r := AddUtxo(db, f, build);
            r.Ok? ==> Advances(db.utxos, r.value.utxos) && KeepsSpent(db.utxos, r.value.utxos, {f.utxo.outPoint})
  {
  }

  lemma SameCoinsAdvance(db: Db, db': Db)
    requires db'.utxos == db.utxos
    ensures Advances(db.utxos, db'.utxos) && KeepsSpent(db.utxos, db'.utxos, {})
  {
  }

  lemma TaskProcessedAdvances(db: Db, taskId: nat)
    ensures var r := UpdateSafeboxTaskProcessed(db, taskId);
            r.Ok? ==> Advances(db.utxos, r.value.utxos) && KeepsSpent(db.utxos, r.value.utxos, {})
  {
    if IsProcessing(db, taskId) {
      var t := db.tasks[taskId];
      var d := SetTask(db, taskId, t.(status := Processed));
      FinalizeAdvances(d, |d.orderIds|, t.timelockTxid, None);
      SameCoinsAdvance(db, d);
    }
  }

  lemma TaskInitOkCoins(db: Db, taskId: nat, txid: string, out: nat)
    ensures var r := UpdateSafeboxTaskInitOK(db, taskId, txid, out); r.Ok? ==> r.value.utxos == db.utxos
  {
  }

  lemma TaskEventsAdvance(build: ScriptBuilder, db: Db, e: Event)
    requires IsTaskEvent(e)
    ensures Advances(db.utxos, Apply(build, db, e).utxos) && KeepsSpent(db.utxos, Apply(build, db, e).utxos, {})
  {
    if IsPlainTaskEvent(e) {
      TaskEventFrame(build, db, e);
      SameCoinsAdvance(db, Apply(build, db, e));
    } else if e.TaskInitOk? {
      TaskInitOkCoins(db, e.taskId, e.timelockTxid, e.timelockOutIndex);
      SameCoinsAdvance(db, Apply(build, db, e));
    } else {
      TaskProcessedAdvances(db, e.taskId);
      SameCoinsAdvance(db, db);
    }
  }

  lemma CoinEventsAdvance(build: ScriptBuilder, db: Db, e: Event)
    requires IsCoinEvent(e)
    ensures Advances(db.utxos, Apply(build, db, e).utxos) && KeepsSpent(db.utxos, Apply(build, db, e).utxos, FoundIn(e))
  {
    if e.CoinFound? {
      AddUtxoAdvances(db, e.found, build);
    } else if e.CoinScripted? || e.DepositSeen? {
      DepositEventsAdvance(build, db, e);
    } else {
      CoinSetAdvances(build, db, e);
    }
  }

  lemma SetProcessedAdvances(db: Db, op: OutPoint)
    ensures var r := UpdateUtxoStatusProcessed(db, op);
            r.Ok? ==> Advances(db.utxos, r.value.utxos) && KeepsSpent(db.utxos, r.value.utxos, {})
  {
  }

  lemma SetSpentAdvances(db: Db, op: OutPoint, block: nat)
    ensures var r := UpdateUtxoStatusSpent(db, op, block);
            r.Ok? ==> Advances(db.utxos, r.value.utxos) && KeepsSpent(db.utxos, r.value.utxos, {})
  {
  }

  lemma SpentByVinsAdvances(db: Db, vins: seq<Vin>, block: nat)
    ensures var db' := UpdateUtxoStatusSpentByVins(db, vins, block);
            Advances(db.utxos, db'.utxos) && KeepsSpent(db.utxos, db'.utxos, {})
  {
  }

  lemma CoinSetAdvances(build: ScriptBuilder, db: Db, e: Event)
    requires e.CoinSetProcessed? || e.CoinSetSpent? || e.CoinsSpent?
    ensures Advances(db.utxos, Apply(build, db, e).utxos) && KeepsSpent(db.utxos, Apply(build, db, e).utxos, {})
  {
    SameCoinsAdvance(db, db);
    match e {
      case CoinSetProcessed(op) => SetProcessedAdvances(db, op);
      case CoinSetSpent(op, block) => SetSpentAdvances(db, op, block);
      case CoinsSpent(vins, block) => SpentByVinsAdvances(db, vins, block);
    }
  }

  lemma DepositEventsAdvance(build: ScriptBuilder, db: Db, e: Event)
    requires e.CoinScripted? || e.DepositSeen?
    ensures Advances(db.utxos, Apply(build, db, e).utxos) && KeepsSpent(db.utxos, Apply(build, db, e).utxos, {})
  {
    if e.CoinScripted? {
      SubScriptAdvances(db, e.op, e.evmAddr, build);
    } else {
      DepositAdvances(db, e.op, e.address, e.amount, e.blockHash);
    }
  }

  lemma SubScriptAdvances(db: Db, op: OutPoint, evmAddr: string, build: ScriptBuilder)
    ensures var r := UpdateUtxoSubScript(db, op, evmAddr, build);
            r.Ok? ==> Advances(db.utxos, r.value.utxos) && KeepsSpent(db.utxos, r.value.utxos, {})
  {
  }

  lemma DepositAdvances(db: Db, op: OutPoint, address: string, amount: nat, hash: string)
    ensures Advances(db.utxos, AddDepositResult(db, op, address, amount, hash).utxos)
    ensures KeepsSpent(db.utxos, AddDepositResult(db, op, address, amount, hash).utxos, {})
  {
  }

  lemma AddingEventsAdvance(db: Db, e: Event)
    requires e.OrderCreated? || e.OrderRecovered? || e.OrderPending?
    ensures var db' := After(db, TryOrder(db, e)); Advances(db.utxos, db'.utxos) && KeepsSpent(db.utxos, db'.utxos, {})
  {
    SameCoinsAdvance(db, db);
    match e {
      case OrderCreated(n, p) => CreateAdvances(db, n, p);
      case OrderRecovered(o, vins, vouts, ids) => RecoverAdvances(db, o, vins, vouts, ids);
      case OrderPending(txid, ext, rec) => PendingAdvances(db, txid, ext, rec);
    }
  }

  lemma ProgressEventsAdvance(db: Db, e: Event)
    requires e.OrderInitialized? || e.OrderConfirmed? || e.WithdrawInitialized? || e.WithdrawFinalized?
    ensures var db' := After(db, TryOrder(db, e)); Advances(db.utxos, db'.utxos) && KeepsSpent(db.utxos, db'.utxos, {})
  {
    SameCoinsAdvance(db, db);
    match e {
      case OrderInitialized(txid, ext) => SameCoinsAdvance(db, UpdateSendOrderInitlized(db, txid, ext));
      case OrderConfirmed(txid, block) => ConfirmedAdvances(db, txid, block);
      case WithdrawInitialized(txid, pid) => InitializeAdvances(db, |db.orderIds|, txid, true, pid);
      case WithdrawFinalized(txid, pid) => FinalizeAdvances(db, |db.orderIds|, txid, Some(pid));
    }
  }

  lemma OrderEventsAdvance(build: ScriptBuilder, db: Db, e: Event)
    requires !IsCoinEvent(e) && !IsTaskEvent(e) && !e.CleanedById? && !e.Cleaned?
    ensures Advances(db.utxos, Apply(build, db, e).utxos) && KeepsSpent(db.utxos, Apply(build, db, e).utxos, {})
  {
    if IsWithdrawEvent(e) {
      WithdrawEventFrame(build, db, e);
      SameCoinsAdvance(db, Apply(build, db, e));
    } else if e.OrderCreated? || e.OrderRecovered? || e.OrderPending? {
      AddingEventsAdvance(db, e);
    } else {
      ProgressEventsAdvance(db, e);
    }
  }

  // Every step keeps or raises the rank of every coin, except that cleaning returns the pending coins of
  // the closed order to processed.
  lemma CoinLifeCycle(build: ScriptBuilder, db: Db, e: Event, op: OutPoint)
    requires op in db.utxos
    ensures var db' := Apply(build, db, e);
            op in db'.utxos
            && (Rank(db'.utxos[op].status) >= Rank(db.utxos[op].status)
                || (ClosedBy(db, e).Some? && op in VinsOf(db.vins, ClosedBy(db, e).value)
                    && db.utxos[op].status == CoinPending && db'.utxos[op].status == CoinProcessed))
    ensures db.utxos[op].status == CoinSpent && op !in FoundIn(e) ==>
              var u, u' := db.utxos[op], Apply(build, db, e).utxos[op]; u' == u.(subScript := u'.subScript)
  {
    if IsTaskEvent(e) {
      TaskEventsAdvance(build, db, e);
    } else if IsCoinEvent(e) {
      CoinEventsAdvance(build, db, e);
    } else if !e.CleanedById? && !e.Cleaned? {
      OrderEventsAdvance(build, db, e);
    }
  }

  // A spent coin stays spent over every run.
  lemma {:induction false} SpentForever(build: ScriptBuilder, db: Db, es: seq<Event>, op: OutPoint)
    requires op in db.utxos && db.utxos[op].status == CoinSpent
    ensures op in Run(build, db, es).utxos && Run(build, db, es).utxos[op].status == CoinSpent
    decreases |es|
  {
    if es != [] {
      CoinLifeCycle(build, db, es[0], op);
      SpentForever(build, Apply(build, db, es[0]), es[1..], op);
    }
  }

  // The block in which it was spent is on record for good, until the scanner finds the coin again.
  lemma {:induction false} SpentBlockForever(build: ScriptBuilder, db: Db, es: seq<Event>, op: OutPoint)
    requires op in db.utxos && db.utxos[op].status == CoinSpent
    requires forall i :: 0 <= i < |es| && es[i].CoinFound? ==> es[i].found.utxo.outPoint != op
    ensures op in Run(build, db, es).utxos
    ensures var u, u' := db.utxos[op], Run(build, db, es).utxos[op];
            && u'.status == CoinSpent && u'.spentBlock == u.spentBlock
            && u'.amount == u.amount && u'.receiverType == u.receiverType && u'.outPoint == u.outPoint
    decreases |es|
  {
    if es != [] {
      CoinLifeCycle(build, db, es[0], op);
      SpentBlockForever(build, Apply(build, db, es[0]), es[1..], op);
    }
  }

  // So the block with which an order was confirmed stays with its coins, whatever else happens to them.
  lemma ConfirmedBlockStays(build: ScriptBuilder, db: Db, txid: string, block: nat, k: nat, op: OutPoint, es: seq<Event>)
    requires IsNewest(db, txid, k) && db.orders[db.orderIds[k]].status !in {Confirmed, Processed, Closed}
    requires InputsKnown(db, db.orderIds[k]) && SpentBy(db, db.orderIds[k], op) && db.utxos[op].status != CoinSpent
    requires forall i :: 0 <= i < |es| && es[i].CoinFound? ==> es[i].found.utxo.outPoint != op
    ensures var after := Run(build, db, [OrderConfirmed(txid, block)] + es);
            op in after.utxos && after.utxos[op].status == CoinSpent && after.utxos[op].spentBlock == block
  {
    var e := OrderConfirmed(txid, block);
    ConfirmedCoin(db, txid, block, k, op);
    assert Apply(build, db, e) == UpdateSendOrderConfirmed(db, txid, block).value;
    assert ([e] + es)[1..] == es;
    SpentBlockForever(build, Apply(build, db, e), es, op);
  }

  lemma ConfirmedCoin(db: Db, txid: string, block: nat, k: nat, op: OutPoint)
    requires IsNewest(db, txid, k) && db.orders[db.orderIds[k]].status !in {Confirmed, Processed, Closed}
    requires InputsKnown(db, db.orderIds[k]) && SpentBy(db, db.orderIds[k], op) && db.utxos[op].status != CoinSpent
    ensures var r := UpdateSendOrderConfirmed(db, txid, block);
            r.Ok? && op in r.value.utxos && r.value.utxos[op].status == CoinSpent && r.value.utxos[op].spentBlock == block
  {
    ConfirmLaw(db, txid, block, k);
  }
}
