// The status graph of send orders over all steps.
module OrderGraph {
  import opened Common
  import opened Models
  import opened WalletRows
  import opened OrderSteps
  import opened CoinSteps
  import opened TaskSteps
  import opened WalletRuns

  // The moves a step can make.  Reopening a closed order is special to UpdateWithdrawInitialized.
  predicate Edge(s: Status, s': Status, reopens: bool) {
    || s' == s
    || (s' in {Init, Pending, Confirmed} && !Final(s))
    || (s' == Processed && s in {Init, Pending, Confirmed})
    || (s' == Closed && s == Aggregating)
    || (s' == Init && s == Closed && reopens)
  }

  ghost predicate OrdersMove(before: map<string, Order>, after: map<string, Order>, reopens: bool) {
    forall id :: id in before ==> id in after && after[id].txid == before[id].txid
                                  && Edge(before[id].status, after[id].status, reopens)
  }

  // ---------- The two loops ----------

  predicate InitializeMove(s: Status, s': Status) {
    s' == s || ((s == Aggregating || s == Closed) && (s' == Init || s' == Closed))
  }

  ghost predicate InitializeMoves(before: Db, after: Db) {
    && after.orderIds == before.orderIds && after.orders.Keys == before.orders.Keys
    && forall id :: id in before.orders ==> after.orders[id].txid == before.orders[id].txid
                                            && InitializeMove(before.orders[id].status, after.orders[id].status)
  }

  ghost predicate NotAggregating(db: Db, after: Db, k: nat, txid: string)
    requires k <= |db.orderIds|
  {
    forall j :: 0 <= j < k && db.orderIds[j] in db.orders && db.orders[db.orderIds[j]].txid == txid ==>
      db.orderIds[j] in after.orders && after.orders[db.orderIds[j]].status != Aggregating
  }

  // Visited orders of the transaction are not aggregating afterwards.
  lemma {:induction false} InitializeOrdersMove(db: Db, k: nat, txid: string, newest: bool, pid: nat)
    requires k <= |db.orderIds|
    ensures var r := InitializeOrders(db, k, txid, newest, pid);
            r.Ok? ==> InitializeMoves(db, r.value) && NotAggregating(db, r.value, k, txid)
    decreases k
  {
    if k > 0 {
      var id := db.orderIds[k - 1];
      if id !in db.orders || db.orders[id].txid != txid {
        InitializeOrdersMove(db, k - 1, txid, newest, pid);
      } else {
        InitializeOneMoves(db, id, newest, pid);
        var r := InitializeOrder(db, id, newest, pid);
        if r.Ok? {
          InitializeOrdersMove(r.value, k - 1, txid, false, pid);
          var r' := InitializeOrders(r.value, k - 1, txid, false, pid);
          if r'.Ok? {
            InitializeMovesCompose(db, r.value, r'.value, k, txid);
          }
        }
      }
    }
  }

  lemma InitializeMovesCompose(a: Db, b: Db, c: Db, k: nat, txid: string)
    requires 0 < k <= |a.orderIds| && InitializeMoves(a, b) && InitializeMoves(b, c)
    requires NotAggregating(b, c, k - 1, txid)
    requires a.orderIds[k - 1] in b.orders && b.orders[a.orderIds[k - 1]].status != Aggregating
    ensures InitializeMoves(a, c) && NotAggregating(a, c, k, txid)
  {
  }

  lemma InitializeOneMoves(db: Db, id: string, newest: bool, pid: nat)
    requires id in db.orders
    ensures var r := InitializeOrder(db, id, newest, pid);
            r.Ok? ==> InitializeMoves(db, r.value) && r.value.orders[id].status != Aggregating
  {
    if InitializeOrder(db, id, newest, pid).Ok? {
      InitializeOneStatus(db, id, newest, pid);
    }
  }

  // One pass of the loop changes one order.
  lemma InitializeOneStatus(db: Db, id: string, newest: bool, pid: nat)
    requires id in db.orders && InitializeOrder(db, id, newest, pid).Ok?
    ensures var db' := InitializeOrder(db, id, newest, pid).value;
            && db'.orderIds == db.orderIds && db'.orders.Keys == db.orders.Keys
            && (forall x :: x in db.orders && x != id ==> db'.orders[x] == db.orders[x])
            && db'.orders[id].txid == db.orders[id].txid
            && db'.orders[id].status == (var s := db.orders[id].status;
                 if s == Aggregating || s == Closed then if newest then Init else Closed else s)
  {
  }

  predicate FinalizeMove(s: Status, s': Status) {
    s' == s || (s' == Processed && s in {Init, Pending, Confirmed})
  }

  ghost predicate FinalizeMoves(before: Db, after: Db) {
    && after.orderIds == before.orderIds && after.orders.Keys == before.orders.Keys
    && forall id :: id in before.orders ==> after.orders[id].txid == before.orders[id].txid
                                            && FinalizeMove(before.orders[id].status, after.orders[id].status)
  }

  lemma {:induction false} FinalizeOrdersMove(db: Db, k: nat, txid: string, pid: Option<nat>)
    requires k <= |db.orderIds|
    ensures var r := FinalizeOrders(db, k, txid, pid); r.Ok? ==> FinalizeMoves(db, r.value)
    decreases k
  {
    if k > 0 {
      var id := db.orderIds[k - 1];
      if id !in db.orders || db.orders[id].txid != txid {
        FinalizeOrdersMove(db, k - 1, txid, pid);
      } else {
        FinalizeOneMoves(db, id, pid);
        var r := FinalizeOrder(db, id, pid);
        if r.Ok? {
          FinalizeOrdersMove(r.value, k - 1, txid, pid);
        }
      }
    }
  }

  lemma FinalizeOneMoves(db: Db, id: string, pid: Option<nat>)
    requires id in db.orders
    ensures var r := FinalizeOrder(db, id, pid); r.Ok? ==> FinalizeMoves(db, r.value)
  {
  }

  lemma FinalizeTxidMoves(db: Db, txid: string, pid: Option<nat>)
    ensures var r := FinalizeTxid(db, txid, pid); r.Ok? ==> FinalizeMoves(db, r.value)
  {
    FinalizeOrdersMove(db, |db.orderIds|, txid, pid);
  }

  // ---------- All steps ----------

  // Every order is listed, and steps only append to the list.
  ghost predicate Listed(db: Db) {
    forall id :: id in db.orders ==> id in db.orderIds
  }

  ghost predicate Moved(db: Db, after: Db, reopens: bool) {
    OrdersMove(db.orders, after.orders, reopens) && (Listed(db) ==> Listed(after))
  }

  // One order moves along an edge.
  lemma OneMoves(db: Db, after: Db, id: string)
    requires id in db.orders && after.orderIds == db.orderIds && after.orders.Keys == db.orders.Keys
    requires after.orders[id].txid == db.orders[id].txid && Edge(db.orders[id].status, after.orders[id].status, false)
    requires forall x :: x in db.orders && x != id ==> after.orders[x] == db.orders[x]
    ensures Moved(db, after, false)
  {
  }

  lemma InsertMoves(db: Db, after: Db, o: Order)
    requires o.orderId !in db.orders
    requires after.orders == InsertOrder(db, o).orders && after.orderIds == InsertOrder(db, o).orderIds
    ensures Moved(db, after, false)
  {
  }

  lemma TaskInitOkMoves(db: Db, taskId: nat, txid: string, out: nat)
    ensures var r := UpdateSafeboxTaskInitOK(db, taskId, txid, out); r.Ok? ==> Moved(db, r.value, false)
  {
    var newest := NewestByTxid(db.orders, db.orderIds, txid);
    var r := UpdateSafeboxTaskInitOK(db, taskId, txid, out);
    if r.Ok? && newest.Some? {
      OneMoves(db, r.value, newest.value);
    }
  }

  lemma TaskEventsMove(build: ScriptBuilder, db: Db, e: Event)
    requires IsTaskEvent(e)
    ensures Moved(db, Apply(build, db, e), false)
  {
    if IsPlainTaskEvent(e) {
      TaskEventFrame(build, db, e);
    } else if e.TaskInitOk? {
      TaskInitOkMoves(db, e.taskId, e.timelockTxid, e.timelockOutIndex);
    } else if IsProcessing(db, e.taskId) {
      var t := db.tasks[e.taskId];
      FinalizeTxidMoves(SetTask(db, e.taskId, t.(status := Processed)), t.timelockTxid, None);
    }
  }

  lemma InitlizedMoves(db: Db, txid: string, ext: string)
    ensures Moved(db, UpdateSendOrderInitlized(db, txid, ext), false)
  {
    var newest := NewestByTxid(db.orders, db.orderIds, txid);
    if newest.Some? {
      OneMoves(db, UpdateSendOrderInitlized(db, txid, ext), newest.value);
    }
  }

  lemma SetPendingMoves(db: Db, id: string, ext: string)
    requires id in db.orders
    ensures Moved(db, SetPending(db, id, ext), false)
  {
    OneMoves(db, SetPending(db, id, ext), id);
  }

  lemma PendingMoves(db: Db, txid: string, ext: string, rec: Recovery)
    ensures var r := UpdateSendOrderPending(db, txid, ext, rec); r.Ok? ==> Moved(db, r.value, false)
  {
    match NewestByTxid(db.orders, db.orderIds, txid)
    case Some(id) => SetPendingMoves(db, id, ext);
    case None =>
      var inserted := InsertRecovered(db, txid, rec);
      if inserted.Ok? {
        InsertMoves(db, inserted.value, rec.order.value);
        SetPendingMoves(inserted.value, rec.order.value.orderId, ext);
        SetPendingOnly(inserted.value, rec.order.value.orderId, ext);
      }
  }

  lemma SetPendingOnly(db: Db, id: string, ext: string)
    requires id in db.orders
    ensures forall x :: x in db.orders && x != id ==> x in SetPending(db, id, ext).orders
                                                      && SetPending(db, id, ext).orders[x] == db.orders[x]
  {
  }

  lemma ConfirmedMoves(db: Db, txid: string, block: nat)
    ensures var r := UpdateSendOrderConfirmed(db, txid, block); r.Ok? ==> Moved(db, r.value, false)
  {
    var newest := NewestByTxid(db.orders, db.orderIds, txid);
    var r := UpdateSendOrderConfirmed(db, txid, block);
    if newest.Some? && r.Ok? {
      OneMoves(db, r.value, newest.value);
    }
  }

  lemma CleanByIdMoves(db: Db, id: string)
    ensures Moved(db, CleanProcessingWithdrawByOrderId(db, id), false)
  {
    if id in db.orders && db.orders[id].status == Aggregating {
      OneMoves(db, CloseOrder(db, id), id);
    }
  }

  lemma CleanedMoves(db: Db)
    ensures Moved(db, CleanProcessingWithdraw(db), false)
  {
    var id := FirstInStatus(db.orders, db.orderIds, Aggregating);
    if id.Some? {
      OneMoves(db, CloseOrder(db, id.value), id.value);
    }
  }

  lemma CreateMoves(db: Db, n: NewOrder, isProposer: bool)
    ensures var r := CreateSendOrder(db, n, isProposer); r.Ok? ==> Moved(db, r.value, false)
  {
    var r := CreateSendOrder(db, n, isProposer);
    if r.Ok? {
      InsertMoves(db, r.value, n.order);
    }
  }

  lemma RecoverMoves(db: Db, o: Order, vins: seq<Vin>, vouts: seq<Vout>, ids: seq<nat>)
    ensures var r := RecoverSendOrder(db, o, vins, vouts, ids); r.Ok? ==> Moved(db, r.value, false)
  {
    var r := RecoverSendOrder(db, o, vins, vouts, ids);
    if r.Ok? && !HasOpenOrder(db, o.txid) {
      InsertMoves(db, r.value, o);
    }
  }

  // Each step moves each order along at most one edge of the graph.
  lemma OrderStep(build: ScriptBuilder, db: Db, e: Event)
    ensures Moved(db, Apply(build, db, e), e.WithdrawInitialized?)
  {
    if IsTaskEvent(e) {
      TaskEventsMove(build, db, e);
    } else if IsCoinEvent(e) {
      CoinEventFrame(build, db, e);
      SameOrdersMove(db, Apply(build, db, e));
    } else if IsWithdrawEvent(e) {
      WithdrawEventFrame(build, db, e);
      SameOrdersMove(db, Apply(build, db, e));
    } else {
      OrderEventsMove(build, db, e);
    }
  }

  lemma SameOrdersMove(db: Db, after: Db)
    requires after.orders == db.orders && after.orderIds == db.orderIds
    ensures Moved(db, after, false)
  {
  }

  lemma OrderEventsMove(build: ScriptBuilder, db: Db, e: Event)
    requires !IsTaskEvent(e) && !IsCoinEvent(e) && !IsWithdrawEvent(e)
    ensures Moved(db, Apply(build, db, e), e.WithdrawInitialized?)
  {
    if e.OrderCreated? || e.OrderRecovered? || e.OrderPending? {
      AddingEventsMove(db, e);
    } else {
      ProgressEventsMove(db, e);
    }
  }

  lemma AddingEventsMove(db: Db, e: Event)
    requires e.OrderCreated? || e.OrderRecovered? || e.OrderPending?
    ensures Moved(db, After(db, TryOrder(db, e)), false)
  {
    match e {
      case OrderCreated(n, p) => CreateMoves(db, n, p);
      case OrderRecovered(o, vins, vouts, ids) => RecoverMoves(db, o, vins, vouts, ids);
      case OrderPending(txid, ext, rec) => PendingMoves(db, txid, ext, rec);
    }
  }

  lemma ProgressEventsMove(db: Db, e: Event)
    requires e.OrderInitialized? || e.OrderConfirmed? || e.WithdrawInitialized? || e.WithdrawFinalized?
             || e.CleanedById? || e.Cleaned?
    ensures Moved(db, After(db, TryOrder(db, e)), e.WithdrawInitialized?)
  {
    match e {
      case OrderInitialized(txid, ext) => InitlizedMoves(db, txid, ext);
      case OrderConfirmed(txid, block) => ConfirmedMoves(db, txid, block);
      case WithdrawInitialized(txid, pid) => InitializeOrdersMove(db, |db.orderIds|, txid, true, pid);
      case WithdrawFinalized(txid, pid) => FinalizeTxidMoves(db, txid, Some(pid));
      case CleanedById(id) => CleanByIdMoves(db, id);
      case Cleaned => CleanedMoves(db);
    }
  }

  // A confirmed order only ever becomes processed, and a processed order never changes.
  lemma {:induction false} SettledOrders(build: ScriptBuilder, db: Db, es: seq<Event>, id: string)
    requires id in db.orders
    ensures id in Run(build, db, es).orders
    ensures var s, s' := db.orders[id].status, Run(build, db, es).orders[id].status;
            (s == Confirmed ==> s' == Confirmed || s' == Processed) && (s == Processed ==> s' == Processed)
    decreases |es|
  {
    if es != [] {
      OrderStep(build, db, es[0]);
      SettledOrders(build, Apply(build, db, es[0]), es[1..], id);
    }
  }

  // Without UpdateWithdrawInitialized a closed order stays closed.
  lemma {:induction false} ClosedOrders(build: ScriptBuilder, db: Db, es: seq<Event>, id: string)
    requires id in db.orders && db.orders[id].status == Closed
    requires forall i :: 0 <= i < |es| ==> !es[i].WithdrawInitialized?
    ensures id in Run(build, db, es).orders && Run(build, db, es).orders[id].status == Closed
    decreases |es|
  {
    if es != [] {
      OrderStep(build, db, es[0]);
      ClosedOrders(build, Apply(build, db, es[0]), es[1..], id);
    }
  }

  lemma {:induction false} ReachableListed(build: ScriptBuilder, db: Db, es: seq<Event>)
    requires Listed(db)
    ensures Listed(Run(build, db, es))
    decreases |es|
  {
    if es != [] {
      OrderStep(build, db, es[0]);
      ReachableListed(build, Apply(build, db, es[0]), es[1..]);
    }
  }

  // In a reachable database, a successful UpdateWithdrawInitialized leaves no order of the transaction aggregating.
  lemma NoneAggregating(build: ScriptBuilder, es: seq<Event>, txid: string, pid: nat, id: string)
    requires var db := Run(build, EMPTY_DB, es);
             var r := UpdateWithdrawInitialized(db, txid, pid);
             r.Ok? && id in r.value.orders && r.value.orders[id].txid == txid
    ensures var db := Run(build, EMPTY_DB, es);
            UpdateWithdrawInitialized(db, txid, pid).value.orders[id].status != Aggregating
  {
    var db := Run(build, EMPTY_DB, es);
    ReachableListed(build, EMPTY_DB, es);
    InitializeOrdersMove(db, |db.orderIds|, txid, true, pid);
  }
}
