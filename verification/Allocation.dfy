// No output is promised to two transactions at once.
module Allocation {
  import opened Common
  import opened Models
  import opened WalletRows
  import opened OrderSteps
  import opened CoinSteps
  import opened TaskSteps
  import opened WalletRuns
  import opened CoinRanks
  import OrderGraph

  // ---------- The invariant ----------

  ghost predicate Live(db: Db, id: string) {
    id in db.orders && !Final(db.orders[id].status)
  }

  ghost predicate Settled(db: Db, id: string) {
    id in db.orders && (db.orders[id].status == Confirmed || db.orders[id].status == Processed)
  }

  ghost predicate HeldAt(db: Db, op: OutPoint) {
    op in db.utxos && Allocated(db.utxos[op])
  }

  ghost predicate SpentAt(db: Db, op: OutPoint) {
    op in db.utxos && db.utxos[op].status == CoinSpent
  }

  // Every vin belongs to an order.
  ghost predicate Owned(db: Db) {
    forall i :: 0 <= i < |db.vins| ==> db.vins[i].orderId in db.orders
  }

  // Vins of live orders are pending or spent.
  ghost predicate LiveHeld(db: Db) {
    forall i :: 0 <= i < |db.vins| && Live(db, db.vins[i].orderId) ==> HeldAt(db, db.vins[i].prev)
  }

  // No output is a vin of two live orders, or twice a vin of one order.
  ghost predicate Exclusive(db: Db) {
    forall i, j :: 0 <= i < j < |db.vins|
      && ((Live(db, db.vins[i].orderId) && Live(db, db.vins[j].orderId)) || db.vins[i].orderId == db.vins[j].orderId)
      ==> db.vins[i].prev != db.vins[j].prev
  }

  // Vins of confirmed and processed orders are spent.
  ghost predicate SettledSpent(db: Db) {
    forall i :: 0 <= i < |db.vins| && Settled(db, db.vins[i].orderId) ==> SpentAt(db, db.vins[i].prev)
  }

  ghost predicate NoDoubleAllocation(db: Db) {
    Owned(db) && LiveHeld(db) && Exclusive(db) && SettledSpent(db)
  }

  // ---------- Steps that keep it ----------

  // Orders only leave the live set; orders are settled with spent vins; no held or spent coin is let go
  // while a live order needs it.
  ghost predicate Keeps(db: Db, db': Db) {
    && SameVins(db.vins, db'.vins)
    && db'.orders.Keys == db.orders.Keys
    && (forall id :: id in db.orders && Live(db', id) ==> Live(db, id))
    && (forall i :: 0 <= i < |db.vins| && Settled(db', db.vins[i].orderId) ==>
          Settled(db, db.vins[i].orderId) || SpentAt(db', db.vins[i].prev))
    && (forall op :: SpentAt(db, op) ==> SpentAt(db', op))
    && (forall i :: 0 <= i < |db.vins| && Live(db', db.vins[i].orderId) && HeldAt(db, db.vins[i].prev) ==>
          HeldAt(db', db.vins[i].prev))
  }

  lemma KeepsInvariant(db: Db, db': Db)
    requires NoDoubleAllocation(db) && Keeps(db, db')
    ensures NoDoubleAllocation(db')
  {
  }

  // A step that changes statuses of one order and lets coins advance.
  lemma OneOrderKeeps(db: Db, db': Db, id: string)
    requires id in db.orders && db'.orders.Keys == db.orders.Keys && SameVins(db.vins, db'.vins)
    requires forall x :: x in db.orders && x != id ==> db'.orders[x] == db.orders[x]
    requires Advances(db.utxos, db'.utxos)
    requires Live(db', id) ==> Live(db, id)
    requires Settled(db', id) ==> Settled(db, id) || forall op :: op in VinsOf(db.vins, id) ==> SpentAt(db', op)
    ensures Keeps(db, db')
  {
    forall i | 0 <= i < |db.vins| && Settled(db', db.vins[i].orderId)
      ensures Settled(db, db.vins[i].orderId) || SpentAt(db', db.vins[i].prev)
    {
      if db.vins[i].orderId == id {
        assert db.vins[i].prev in VinsOf(db.vins, id);
      }
    }
  }

  lemma RowsKeep(db: Db, db': Db)
    requires db'.orders == db.orders && SameVins(db.vins, db'.vins) && Advances(db.utxos, db'.utxos)
    ensures Keeps(db, db')
  {
  }

  lemma InitlizedKeeps(db: Db, txid: string, ext: string)
    ensures Keeps(db, UpdateSendOrderInitlized(db, txid, ext))
  {
    var newest := NewestByTxid(db.orders, db.orderIds, txid);
    if newest.Some? {
      OneOrderKeeps(db, UpdateSendOrderInitlized(db, txid, ext), newest.value);
    }
  }

  lemma PendingKeeps(db: Db, id: string, ext: string)
    requires id in db.orders
    ensures Keeps(db, SetPending(db, id, ext))
  {
    OneOrderKeeps(db, SetPending(db, id, ext), id);
  }

  lemma ConfirmKeeps(db: Db, id: string, block: nat)
    requires id in db.orders && ConfirmOrder(db, id, block).Ok?
    ensures Keeps(db, ConfirmOrder(db, id, block).value)
  {
    var db' := ConfirmOrder(db, id, block).value;
    forall op | op in VinsOf(db.vins, id) ensures SpentAt(db', op) {
      assert op in db.utxos;
    }
    OneOrderKeeps(db, db', id);
  }

  lemma ConfirmedKeeps(db: Db, txid: string, block: nat)
    ensures var r := UpdateSendOrderConfirmed(db, txid, block); r.Ok? ==> Keeps(db, r.value)
  {
    var newest := NewestByTxid(db.orders, db.orderIds, txid);
    var r := UpdateSendOrderConfirmed(db, txid, block);
    if newest.Some? && !Final(db.orders[newest.value].status) && r.Ok? {
      ConfirmKeeps(db, newest.value, block);
    }
  }

  lemma FinalizeOneKeeps(db: Db, id: string, pid: Option<nat>)
    requires id in db.orders
    ensures var r := FinalizeOrder(db, id, pid); r.Ok? ==> Keeps(db, r.value)
  {
    var r := FinalizeOrder(db, id, pid);
    if r.Ok? {
      FinalizeOneAdvances(db, id, pid);
      var db' := r.value;
      if db.orders[id].status in {Init, Pending, Confirmed} {
        forall op | op in VinsOf(db.vins, id) ensures SpentAt(db', op) {
          assert op in db.utxos;
        }
      }
      OneOrderKeeps(db, db', id);
    }
  }

  lemma {:induction false} FinalizeKeeps(db: Db, k: nat, txid: string, pid: Option<nat>)
    requires k <= |db.orderIds| && NoDoubleAllocation(db)
    ensures var r := FinalizeOrders(db, k, txid, pid); r.Ok? ==> NoDoubleAllocation(r.value)
    decreases k
  {
    if k > 0 {
      var id := db.orderIds[k - 1];
      if id !in db.orders || db.orders[id].txid != txid {
        FinalizeKeeps(db, k - 1, txid, pid);
      } else {
        FinalizeOneKeeps(db, id, pid);
        var r := FinalizeOrder(db, id, pid);
        if r.Ok? {
          KeepsInvariant(db, r.value);
          FinalizeKeeps(r.value, k - 1, txid, pid);
        }
      }
    }
  }

  lemma FinalizeTxidKeeps(db: Db, txid: string, pid: Option<nat>)
    requires NoDoubleAllocation(db)
    ensures var r := FinalizeTxid(db, txid, pid); r.Ok? ==> NoDoubleAllocation(r.value)
  {
    FinalizeKeeps(db, |db.orderIds|, txid, pid);
    var r := FinalizeOrders(db, |db.orderIds|, txid, pid);
    if r.Ok? {
      RowsKeep(r.value, UpdateOtherStatusByTxid(r.value, txid, Processed));
      KeepsInvariant(r.value, UpdateOtherStatusByTxid(r.value, txid, Processed));
    }
  }

  // The newest order of the transaction is not closed.
  ghost predicate NewestOpen(db: Db, k: nat, txid: string)
    requires k <= |db.orderIds|
  {
    var newest := NewestByTxid(db.orders, db.orderIds[..k], txid);
    newest.Some? ==> db.orders[newest.value].status != Closed
  }

  lemma InitializeOneKeeps(db: Db, id: string, newest: bool, pid: nat)
    requires id in db.orders && (newest ==> db.orders[id].status != Closed)
    ensures var r := InitializeOrder(db, id, newest, pid); r.Ok? ==> Keeps(db, r.value)
  {
    var r := InitializeOrder(db, id, newest, pid);
    if r.Ok? {
      InitializeOneAdvances(db, id, newest, pid);
      OrderGraph.InitializeOneStatus(db, id, newest, pid);
      assert SameVins(db.vins, r.value.vins);
      OneOrderKeeps(db, r.value, id);
    }
  }

  lemma {:induction false} InitializeKeeps(db: Db, k: nat, txid: string, newest: bool, pid: nat)
    requires k <= |db.orderIds| && NoDoubleAllocation(db) && (newest ==> NewestOpen(db, k, txid))
    ensures var r := InitializeOrders(db, k, txid, newest, pid); r.Ok? ==> NoDoubleAllocation(r.value)
    decreases k
  {
    if k > 0 {
      var id := db.orderIds[k - 1];
      assert db.orderIds[..k][..k - 1] == db.orderIds[..k - 1];
      if id !in db.orders || db.orders[id].txid != txid {
        InitializeKeeps(db, k - 1, txid, newest, pid);
      } else {
        InitializeOneKeeps(db, id, newest, pid);
        var r := InitializeOrder(db, id, newest, pid);
        if r.Ok? {
          KeepsInvariant(db, r.value);
          InitializeKeeps(r.value, k - 1, txid, false, pid);
        }
      }
    }
  }

  // ---------- Adding an order ----------

  // What is live and settled once an order is added.
  predicate LiveWith(db: Db, o: Order, x: string) {
    if x == o.orderId then !Final(o.status) else x in db.orders && !Final(db.orders[x].status)
  }

  predicate SettledWith(db: Db, o: Order, x: string) {
    var s := if x == o.orderId then Some(o.status) else if x in db.orders then Some(db.orders[x].status) else None;
    s == Some(Confirmed) || s == Some(Processed)
  }

  predicate Clash(db: Db, o: Order, x: string, y: string) {
    (LiveWith(db, o, x) && LiveWith(db, o, y)) || x == y
  }

  // Vins that can be added with an order whose step marks the given outpoints: they belong to known orders, those
  // of live orders are on coins that are marked or held, those of settled orders on spent coins, and none repeats
  // an outpoint that a vin of the same or another live order has.
  ghost predicate VinsFit(db: Db, o: Order, vins: seq<Vin>, marked: set<OutPoint>) {
    VinsAllowed(db, o, vins, marked) && VinsApart(db, o, vins)
  }

  ghost predicate VinsAllowed(db: Db, o: Order, vins: seq<Vin>, marked: set<OutPoint>) {
    && (forall i :: 0 <= i < |vins| ==> vins[i].orderId == o.orderId || vins[i].orderId in db.orders)
    && (forall i :: 0 <= i < |vins| && LiveWith(db, o, vins[i].orderId) ==>
          vins[i].prev in db.utxos && (vins[i].prev in marked || Allocated(db.utxos[vins[i].prev])))
    && (forall i :: 0 <= i < |vins| && SettledWith(db, o, vins[i].orderId) ==> SpentAt(db, vins[i].prev))
  }

  ghost predicate VinsApart(db: Db, o: Order, vins: seq<Vin>) {
    && (forall i, j :: 0 <= i < j < |vins| && Clash(db, o, vins[i].orderId, vins[j].orderId) ==> vins[i].prev != vins[j].prev)
    && (forall i, j :: 0 <= i < |db.vins| && 0 <= j < |vins| && Clash(db, o, db.vins[i].orderId, vins[j].orderId) ==>
          db.vins[i].prev != vins[j].prev)
  }

  // The database after an order was added with its vins.
  ghost predicate Added(db: Db, db': Db, o: Order, vins: seq<Vin>, marked: set<OutPoint>) {
    && o.orderId !in db.orders && db'.orders == db.orders[o.orderId := o]
    && SameVins(db.vins + vins, db'.vins) && db'.utxos == HoldCoins(db.utxos, marked)
  }

  lemma AddedFacts(db: Db, db': Db, o: Order, vins: seq<Vin>, marked: set<OutPoint>)
    requires Added(db, db', o, vins, marked)
    ensures forall x :: (Live(db', x) <==> LiveWith(db, o, x)) && (Settled(db', x) <==> SettledWith(db, o, x))
    ensures forall op :: SpentAt(db', op) <==> SpentAt(db, op)
    ensures forall op :: HeldAt(db', op) <==> op in db.utxos && (op in marked || Allocated(db.utxos[op]))
  {
  }

  lemma AddedVins(db: Db, db': Db, o: Order, vins: seq<Vin>, marked: set<OutPoint>)
    requires Added(db, db', o, vins, marked)
    ensures |db'.vins| == |db.vins| + |vins|
    ensures forall i :: 0 <= i < |db.vins| ==> db'.vins[i].orderId == db.vins[i].orderId && db'.vins[i].prev == db.vins[i].prev
    ensures forall i :: |db.vins| <= i < |db'.vins| ==>
              && db'.vins[i].orderId == vins[i - |db.vins|].orderId && db'.vins[i].prev == vins[i - |db.vins|].prev
  {
  }

  lemma FitKeeps(db: Db, db': Db, o: Order, vins: seq<Vin>, marked: set<OutPoint>)
    requires NoDoubleAllocation(db) && Added(db, db', o, vins, marked) && VinsFit(db, o, vins, marked)
    ensures NoDoubleAllocation(db')
  {
    AddedFacts(db, db', o, vins, marked);
    AddedVins(db, db', o, vins, marked);
    var m := |db.vins|;
    assert forall i :: 0 <= i < m ==> db.vins[i].orderId != o.orderId;
    assert Owned(db') && LiveHeld(db') && SettledSpent(db');
    FitIsExclusive(db, db', o, vins, marked);
  }

  lemma FitIsExclusive(db: Db, db': Db, o: Order, vins: seq<Vin>, marked: set<OutPoint>)
    requires NoDoubleAllocation(db) && Added(db, db', o, vins, marked) && VinsFit(db, o, vins, marked)
    ensures Exclusive(db')
  {
    AddedFacts(db, db', o, vins, marked);
    AddedVins(db, db', o, vins, marked);
    var m := |db.vins|;
    forall i, j | 0 <= i < j < |db'.vins|
      && ((Live(db', db'.vins[i].orderId) && Live(db', db'.vins[j].orderId)) || db'.vins[i].orderId == db'.vins[j].orderId)
      ensures db'.vins[i].prev != db'.vins[j].prev
    {
      assert Clash(db, o, db'.vins[i].orderId, db'.vins[j].orderId);
      if i < m && j < m {
        assert db.vins[i].orderId in db.orders && db.vins[j].orderId in db.orders;
      }
    }
  }

  lemma KeptAllows(db: Db, db': Db, o: Order, vins: seq<Vin>, marked: set<OutPoint>)
    requires Added(db, db', o, vins, marked) && NoDoubleAllocation(db')
    ensures VinsAllowed(db, o, vins, marked)
  {
    AddedFacts(db, db', o, vins, marked);
    AddedVins(db, db', o, vins, marked);
    forall i | 0 <= i < |vins|
      ensures vins[i].orderId == o.orderId || vins[i].orderId in db.orders
      ensures LiveWith(db, o, vins[i].orderId) ==> HeldAt(db', vins[i].prev)
      ensures SettledWith(db, o, vins[i].orderId) ==> SpentAt(db', vins[i].prev)
    {
      assert db'.vins[|db.vins| + i].orderId == vins[i].orderId;
    }
  }

  lemma KeptApart(db: Db, db': Db, o: Order, vins: seq<Vin>, marked: set<OutPoint>)
    requires Added(db, db', o, vins, marked) && Exclusive(db')
    ensures VinsApart(db, o, vins)
  {
    AddedFacts(db, db', o, vins, marked);
    AddedVins(db, db', o, vins, marked);
    var m := |db.vins|;
    forall i, j | 0 <= i < j < |vins| && Clash(db, o, vins[i].orderId, vins[j].orderId)
      ensures vins[i].prev != vins[j].prev
    {
      assert db'.vins[m + i].prev != db'.vins[m + j].prev;
    }
    forall i, j | 0 <= i < |db.vins| && 0 <= j < |vins| && Clash(db, o, db.vins[i].orderId, vins[j].orderId)
      ensures db.vins[i].prev != vins[j].prev
    {
      assert db'.vins[i].prev != db'.vins[m + j].prev;
    }
  }

  // Adding an order keeps the invariant exactly when its vins fit.
  lemma AddedIff(db: Db, db': Db, o: Order, vins: seq<Vin>, marked: set<OutPoint>)
    requires NoDoubleAllocation(db) && Added(db, db', o, vins, marked)
    ensures NoDoubleAllocation(db') <==> VinsFit(db, o, vins, marked)
  {
    if VinsFit(db, o, vins, marked) {
      FitKeeps(db, db', o, vins, marked);
    }
    if NoDoubleAllocation(db') {
      KeptAllows(db, db', o, vins, marked);
      KeptApart(db, db', o, vins, marked);
    }
  }

  // An order as the wallet server builds it: one vin per selected coin.
  ghost predicate ProperOrder(n: NewOrder) {
    && n.order.status == Aggregating && |n.vins| == |n.coins|
    && forall i :: 0 <= i < |n.vins| ==> n.vins[i].orderId == n.order.orderId && n.vins[i].prev == n.coins[i]
  }

  lemma CreateAdds(db: Db, n: NewOrder, isProposer: bool)
    ensures var r := CreateSendOrder(db, n, isProposer); r.Ok? ==> Added(db, r.value, n.order, n.vins, ToSet(n.coins))
  {
  }

  lemma ProperFits(db: Db, n: NewOrder)
    requires NoDoubleAllocation(db) && ProperOrder(n) && n.order.orderId !in db.orders && CoinsFree(db.utxos, n.coins)
    ensures VinsFit(db, n.order, n.vins, ToSet(n.coins))
  {
    forall i, j | 0 <= i < |db.vins| && 0 <= j < |n.vins| && Clash(db, n.order, db.vins[i].orderId, n.vins[j].orderId)
      ensures db.vins[i].prev != n.vins[j].prev
    {
      assert db.vins[i].orderId in db.orders;
      assert HeldAt(db, db.vins[i].prev) && Spendable(db.utxos[n.coins[j]]);
    }
    forall i, j | 0 <= i < j < |n.vins| ensures n.vins[i].prev != n.vins[j].prev {
      assert n.coins[i] != n.coins[j];
    }
  }

  // An order of the wallet on its own selected coins keeps the invariant.
  lemma CreateKeeps(db: Db, n: NewOrder, isProposer: bool)
    requires NoDoubleAllocation(db) && ProperOrder(n)
    ensures var r := CreateSendOrder(db, n, isProposer); r.Ok? ==> NoDoubleAllocation(r.value)
  {
    var r := CreateSendOrder(db, n, isProposer);
    if r.Ok? {
      CreateAdds(db, n, isProposer);
      ProperFits(db, n);
      FitKeeps(db, r.value, n.order, n.vins, ToSet(n.coins));
    }
  }

  // ---------- Closing ----------

  lemma CloseKeeps(db: Db, id: string)
    requires NoDoubleAllocation(db) && id in db.orders && db.orders[id].status == Aggregating
    ensures NoDoubleAllocation(CloseOrder(db, id))
  {
    var db' := CloseOrder(db, id);
    forall i | 0 <= i < |db.vins| && Live(db', db.vins[i].orderId) && HeldAt(db, db.vins[i].prev)
      ensures HeldAt(db', db.vins[i].prev)
    {
      if db.vins[i].prev in VinsOf(db.vins, id) {
        var j :| 0 <= j < |db.vins| && db.vins[j].orderId == id && db.vins[j].prev == db.vins[i].prev;
        assert Live(db, db.vins[i].orderId) && Live(db, id) && i != j;
      }
    }
    KeepsInvariant(db, db');
  }

  // ---------- All steps but those that add or reopen orders ----------

  lemma PlainEventKeeps(build: ScriptBuilder, db: Db, e: Event)
    requires IsCoinEvent(e) || IsWithdrawEvent(e) || IsPlainTaskEvent(e)
    ensures Keeps(db, Apply(build, db, e))
  {
    var db' := Apply(build, db, e);
    if IsCoinEvent(e) {
      CoinEventFrame(build, db, e);
      CoinEventsAdvance(build, db, e);
    } else if IsWithdrawEvent(e) {
      WithdrawEventFrame(build, db, e);
    } else {
      TaskEventFrame(build, db, e);
    }
    RowsKeep(db, db');
  }

  lemma TaskProcessedKeeps(db: Db, taskId: nat)
    requires NoDoubleAllocation(db)
    ensures var r := UpdateSafeboxTaskProcessed(db, taskId); r.Ok? ==> NoDoubleAllocation(r.value)
  {
    if IsProcessing(db, taskId) {
      var d := SetTask(db, taskId, db.tasks[taskId].(status := Processed));
      KeepsInvariant(db, d);
      FinalizeTxidKeeps(d, db.tasks[taskId].timelockTxid, None);
    }
  }

  lemma TaskInitOkKeeps(db: Db, taskId: nat, txid: string, out: nat)
    ensures var r := UpdateSafeboxTaskInitOK(db, taskId, txid, out); r.Ok? ==> Keeps(db, r.value)
  {
    var r := UpdateSafeboxTaskInitOK(db, taskId, txid, out);
    var newest := NewestByTxid(db.orders, db.orderIds, txid);
    if r.Ok? && newest.Some? {
      OneOrderKeeps(db, r.value, newest.value);
    }
  }

  lemma TaskOrderEventKeeps(build: ScriptBuilder, db: Db, e: Event)
    requires NoDoubleAllocation(db) && (e.TaskProcessed? || e.TaskInitOk?)
    ensures NoDoubleAllocation(Apply(build, db, e))
  {
    if e.TaskProcessed? {
      TaskProcessedKeeps(db, e.taskId);
    } else {
      TaskInitOkKeeps(db, e.taskId, e.timelockTxid, e.timelockOutIndex);
      if Try(build, db, e).Ok? {
        KeepsInvariant(db, Apply(build, db, e));
      }
    }
  }

  lemma MarkEventKeeps(build: ScriptBuilder, db: Db, e: Event)
    requires NoDoubleAllocation(db) && (e.OrderInitialized? || e.OrderPending?)
    requires e.OrderPending? ==> HasOrder(db, e.txid)
    ensures NoDoubleAllocation(Apply(build, db, e))
  {
    if e.OrderInitialized? {
      InitlizedKeeps(db, e.txid, e.externalTxId);
    } else {
      PendingKeeps(db, NewestByTxid(db.orders, db.orderIds, e.txid).value, e.externalTxId);
    }
    KeepsInvariant(db, Apply(build, db, e));
  }

  lemma SettleEventKeeps(build: ScriptBuilder, db: Db, e: Event)
    requires NoDoubleAllocation(db) && (e.OrderConfirmed? || e.WithdrawFinalized?)
    ensures NoDoubleAllocation(Apply(build, db, e))
  {
    if e.OrderConfirmed? {
      ConfirmedKeeps(db, e.txid, e.btcBlock);
      if UpdateSendOrderConfirmed(db, e.txid, e.btcBlock).Ok? {
        KeepsInvariant(db, Apply(build, db, e));
      }
    } else {
      FinalizeTxidKeeps(db, e.txid, Some(e.pid));
    }
  }

  lemma CleanKeeps(db: Db)
    requires NoDoubleAllocation(db)
    ensures NoDoubleAllocation(CleanProcessingWithdraw(db))
  {
    var id := FirstInStatus(db.orders, db.orderIds, Aggregating);
    if id.Some? {
      CloseKeeps(db, id.value);
    } else {
      RowsKeep(db, CleanProcessingWithdraw(db));
      KeepsInvariant(db, CleanProcessingWithdraw(db));
    }
  }

  lemma CleanByIdKeeps(db: Db, id: string)
    requires NoDoubleAllocation(db)
    ensures NoDoubleAllocation(CleanProcessingWithdrawByOrderId(db, id))
  {
    if id in db.orders && db.orders[id].status == Aggregating {
      CloseKeeps(db, id);
    }
  }

  lemma CleanEventKeeps(build: ScriptBuilder, db: Db, e: Event)
    requires NoDoubleAllocation(db) && (e.CleanedById? || e.Cleaned?)
    ensures NoDoubleAllocation(Apply(build, db, e))
  {
    match e {
      case CleanedById(id) => CleanByIdKeeps(db, id);
      case Cleaned => CleanKeeps(db);
    }
  }

  // A step that neither adds an order nor may reopen one.
  ghost predicate IsSafe(db: Db, e: Event) {
    match e
    case OrderCreated(_, _) => false
    case OrderRecovered(_, _, _, _) => false
    case OrderPending(txid, _, _) => HasOrder(db, txid)
    case WithdrawInitialized(_, _) => false
    case _ => true
  }

  lemma SafeStepKeeps(build: ScriptBuilder, db: Db, e: Event)
    requires NoDoubleAllocation(db) && IsSafe(db, e)
    ensures NoDoubleAllocation(Apply(build, db, e))
  {
    if IsCoinEvent(e) || IsWithdrawEvent(e) || IsPlainTaskEvent(e) {
      PlainEventKeeps(build, db, e);
      KeepsInvariant(db, Apply(build, db, e));
    } else if IsTaskEvent(e) {
      TaskOrderEventKeeps(build, db, e);
    } else if e.CleanedById? || e.Cleaned? {
      CleanEventKeeps(build, db, e);
    } else if e.OrderConfirmed? || e.WithdrawFinalized? {
      SettleEventKeeps(build, db, e);
    } else {
      MarkEventKeeps(build, db, e);
    }
  }
}
