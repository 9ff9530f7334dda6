// No withdrawal is paid by two orders that are not closed: exactly which steps and runs keep it.
module Carriers {
  import opened Common
  import opened Models
  import opened WalletRows
  import opened OrderSteps
  import opened CoinSteps
  import opened TaskSteps
  import opened WalletRuns
  import opened Allocation
  import opened OrderGraph
  import opened Reopening
  import opened Witnesses

  // ---------- The invariant ----------

  predicate SameWithdrawal(a: Vout, b: Vout) {
    a.withdrawId.Some? && a.withdrawId == b.withdrawId
  }

  // Confirmed and processed orders have paid their withdrawals, closed ones never will.
  ghost predicate Unclosed(db: Db, id: string) {
    id in db.orders && db.orders[id].status != Closed
  }

  // Every vout belongs to an order, and no two vouts of unclosed orders pay one withdrawal.
  ghost predicate PaidOnce(db: Db) {
    && (forall i :: 0 <= i < |db.vouts| ==> db.vouts[i].orderId in db.orders)
    && (forall i, j :: 0 <= i < j < |db.vouts| && Unclosed(db, db.vouts[i].orderId) && Unclosed(db, db.vouts[j].orderId) ==>
          !SameWithdrawal(db.vouts[i], db.vouts[j]))
  }

  // Equal up to status.
  ghost predicate SameVouts(a: seq<Vout>, b: seq<Vout>) {
    |a| == |b| && forall i :: 0 <= i < |a| ==> a[i].orderId == b[i].orderId && a[i].withdrawId == b[i].withdrawId
  }

  // Rows of orders may only change status.
  ghost predicate SameBooks(db: Db, db': Db) {
    SameVouts(db.vouts, db'.vouts) && db'.orders.Keys == db.orders.Keys && db'.orderIds == db.orderIds
  }

  lemma FewerUnclosedKeeps(db: Db, db': Db)
    requires PaidOnce(db) && SameBooks(db, db') && forall id :: Unclosed(db', id) ==> Unclosed(db, id)
    ensures PaidOnce(db')
  {
  }

  // ---------- Steps that change statuses ----------

  lemma {:induction false} InitializeBooks(db: Db, k: nat, txid: string, newest: bool, pid: nat)
    requires k <= |db.orderIds|
    ensures var r := InitializeOrders(db, k, txid, newest, pid); r.Ok? ==> SameBooks(db, r.value)
    decreases k
  {
    if k > 0 {
      var id := db.orderIds[k - 1];
      if id !in db.orders || db.orders[id].txid != txid {
        InitializeBooks(db, k - 1, txid, newest, pid);
      } else {
        var r := InitializeOrder(db, id, newest, pid);
        if r.Ok? {
          InitializeOneBooks(db, id, newest, pid);
          InitializeBooks(r.value, k - 1, txid, false, pid);
        }
      }
    }
  }

  lemma InitializeOneBooks(db: Db, id: string, newest: bool, pid: nat)
    requires id in db.orders && InitializeOrder(db, id, newest, pid).Ok?
    ensures SameBooks(db, InitializeOrder(db, id, newest, pid).value)
  {
  }

  lemma {:induction false} FinalizeBooks(db: Db, k: nat, txid: string, pid: Option<nat>)
    requires k <= |db.orderIds|
    ensures var r := FinalizeOrders(db, k, txid, pid); r.Ok? ==> SameBooks(db, r.value)
    decreases k
  {
    if k > 0 {
      var id := db.orderIds[k - 1];
      if id !in db.orders || db.orders[id].txid != txid {
        FinalizeBooks(db, k - 1, txid, pid);
      } else {
        var r := FinalizeOrder(db, id, pid);
        if r.Ok? {
          FinalizeOneBooks(db, id, pid);
          FinalizeBooks(r.value, k - 1, txid, pid);
        }
      }
    }
  }

  lemma FinalizeOneBooks(db: Db, id: string, pid: Option<nat>)
    requires id in db.orders && FinalizeOrder(db, id, pid).Ok?
    ensures SameBooks(db, FinalizeOrder(db, id, pid).value)
  {
  }

  lemma FinalizeTxidBooks(db: Db, txid: string, pid: Option<nat>)
    ensures SameBooks(db, After(db, FinalizeTxid(db, txid, pid)))
  {
    FinalizeBooks(db, |db.orderIds|, txid, pid);
  }

  lemma TaskProcessedBooks(db: Db, taskId: nat)
    ensures SameBooks(db, After(db, UpdateSafeboxTaskProcessed(db, taskId)))
  {
    if IsProcessing(db, taskId) {
      var t := db.tasks[taskId];
      FinalizeTxidBooks(SetTask(db, taskId, t.(status := Processed)), t.timelockTxid, None);
    }
  }

  lemma TaskInitOkBooks(db: Db, taskId: nat, txid: string, out: nat)
    ensures SameBooks(db, After(db, UpdateSafeboxTaskInitOK(db, taskId, txid, out)))
  {
  }

  lemma SetPendingBooks(db: Db, id: string, ext: string)
    requires id in db.orders
    ensures SameBooks(db, SetPending(db, id, ext))
  {
  }

  lemma CloseBooks(db: Db, id: string)
    requires id in db.orders
    ensures SameBooks(db, CloseOrder(db, id))
  {
  }

  lemma CleanBooks(db: Db)
    ensures SameBooks(db, CleanProcessingWithdraw(db))
  {
    var id := FirstInStatus(db.orders, db.orderIds, Aggregating);
    if id.Some? {
      CloseBooks(db, id.value);
    }
  }

  lemma MarkBooks(db: Db, e: Event)
    requires e.OrderInitialized? || e.OrderPending? || e.CleanedById? || e.Cleaned?
    requires e.OrderPending? ==> HasOrder(db, e.txid)
    ensures SameBooks(db, After(db, TryOrder(db, e)))
  {
    match e {
      case OrderInitialized(txid, ext) =>
      case OrderPending(txid, ext, rec) => SetPendingBooks(db, NewestByTxid(db.orders, db.orderIds, txid).value, ext);
      case CleanedById(id) => if id in db.orders { CloseBooks(db, id); }
      case Cleaned => CleanBooks(db);
    }
  }

  lemma SettleBooks(db: Db, e: Event)
    requires e.OrderConfirmed? || e.WithdrawFinalized?
    ensures SameBooks(db, After(db, TryOrder(db, e)))
  {
    match e {
      case OrderConfirmed(txid, block) => ConfirmedBooks(db, txid, block);
      case WithdrawFinalized(txid, pid) => FinalizeTxidBooks(db, txid, Some(pid));
    }
  }

  lemma ConfirmedBooks(db: Db, txid: string, block: nat)
    ensures SameBooks(db, After(db, UpdateSendOrderConfirmed(db, txid, block)))
  {
  }

  lemma SafeBooks(build: ScriptBuilder, db: Db, e: Event)
    requires IsSafe(db, e)
    ensures SameBooks(db, Apply(build, db, e))
  {
    if IsCoinEvent(e) {
      CoinEventFrame(build, db, e);
    } else if IsWithdrawEvent(e) {
      WithdrawEventFrame(build, db, e);
    } else if IsPlainTaskEvent(e) {
      TaskEventFrame(build, db, e);
    } else if e.TaskProcessed? {
      TaskProcessedBooks(db, e.taskId);
    } else if e.TaskInitOk? {
      TaskInitOkBooks(db, e.taskId, e.timelockTxid, e.timelockOutIndex);
    } else if e.OrderConfirmed? || e.WithdrawFinalized? {
      SettleBooks(db, e);
    } else {
      MarkBooks(db, e);
    }
  }

  lemma SafeStepPaysOnce(build: ScriptBuilder, db: Db, e: Event)
    requires PaidOnce(db) && IsSafe(db, e)
    ensures PaidOnce(Apply(build, db, e))
  {
    var db' := Apply(build, db, e);
    SafeBooks(build, db, e);
    OrderStep(build, db, e);
    forall id | Unclosed(db', id) ensures Unclosed(db, id) {
      assert Edge(db.orders[id].status, db'.orders[id].status, false);
    }
    FewerUnclosedKeeps(db, db');
  }

  // ---------- The exact condition of a step ----------

  // What is unclosed once an order is added.
  predicate UnclosedWith(db: Db, o: Order, x: string) {
    if x == o.orderId then o.status != Closed else x in db.orders && db.orders[x].status != Closed
  }

  // Vouts that can be added with an order: they belong to known orders, and pay nothing that a vout of an unclosed order,
  // among them or stored, pays as well.
  ghost predicate VoutsFit(db: Db, o: Order, vouts: seq<Vout>) {
    && (forall i :: 0 <= i < |vouts| ==> vouts[i].orderId == o.orderId || vouts[i].orderId in db.orders)
    && ApartAmong(db, o, vouts) && ApartFrom(db, o, db.vouts, vouts)
  }

  ghost predicate ApartAmong(db: Db, o: Order, vouts: seq<Vout>) {
    forall i, j :: 0 <= i < j < |vouts| && UnclosedWith(db, o, vouts[i].orderId) && UnclosedWith(db, o, vouts[j].orderId) ==>
      !SameWithdrawal(vouts[i], vouts[j])
  }

  ghost predicate ApartFrom(db: Db, o: Order, a: seq<Vout>, b: seq<Vout>) {
    forall i, j :: 0 <= i < |a| && 0 <= j < |b| && UnclosedWith(db, o, a[i].orderId) && UnclosedWith(db, o, b[j].orderId) ==>
      !SameWithdrawal(a[i], b[j])
  }

  // The database after an order was added with its vouts.
  ghost predicate Booked(db: Db, db': Db, o: Order, vouts: seq<Vout>) {
    && o.orderId !in db.orders && db'.orders == db.orders[o.orderId := o]
    && SameVouts(db.vouts + vouts, db'.vouts)
  }

  lemma ApartJoined(db: Db, o: Order, a: seq<Vout>, b: seq<Vout>)
    ensures ApartAmong(db, o, a + b) <==> ApartAmong(db, o, a) && ApartAmong(db, o, b) && ApartFrom(db, o, a, b)
  {
    if ApartAmong(db, o, a + b) {
      forall i, j | 0 <= i < j < |a| && UnclosedWith(db, o, a[i].orderId) && UnclosedWith(db, o, a[j].orderId)
        ensures !SameWithdrawal(a[i], a[j])
      {
        assert !SameWithdrawal((a + b)[i], (a + b)[j]);
      }
      forall i, j | 0 <= i < j < |b| && UnclosedWith(db, o, b[i].orderId) && UnclosedWith(db, o, b[j].orderId)
        ensures !SameWithdrawal(b[i], b[j])
      {
        assert !SameWithdrawal((a + b)[|a| + i], (a + b)[|a| + j]);
      }
      forall i, j | 0 <= i < |a| && 0 <= j < |b| && UnclosedWith(db, o, a[i].orderId) && UnclosedWith(db, o, b[j].orderId)
        ensures !SameWithdrawal(a[i], b[j])
      {
        assert !SameWithdrawal((a + b)[i], (a + b)[|a| + j]);
      }
    }
  }

  // The stored vouts of unclosed orders are apart already, with or without the new order.
  lemma StoredApart(db: Db, o: Order)
    requires PaidOnce(db) && o.orderId !in db.orders
    ensures ApartAmong(db, o, db.vouts)
  {
  }

  lemma BookedApart(db: Db, db': Db, o: Order, vouts: seq<Vout>)
    requires Booked(db, db', o, vouts)
    ensures PaidOnce(db') <==>
              && (forall i :: 0 <= i < |db'.vouts| ==> db'.vouts[i].orderId in db'.orders)
              && ApartAmong(db, o, db.vouts + vouts)
  {
    var all := db.vouts + vouts;
    forall x ensures Unclosed(db', x) <==> UnclosedWith(db, o, x) {
    }
    if PaidOnce(db') {
      forall i, j | 0 <= i < j < |all| && UnclosedWith(db, o, all[i].orderId) && UnclosedWith(db, o, all[j].orderId)
        ensures !SameWithdrawal(all[i], all[j])
      {
        assert !SameWithdrawal(db'.vouts[i], db'.vouts[j]);
      }
    }
    if ApartAmong(db, o, all) {
      forall i, j | 0 <= i < j < |db'.vouts| && Unclosed(db', db'.vouts[i].orderId) && Unclosed(db', db'.vouts[j].orderId)
        ensures !SameWithdrawal(db'.vouts[i], db'.vouts[j])
      {
        assert !SameWithdrawal(all[i], all[j]);
      }
    }
  }

  lemma BookedKnown(db: Db, db': Db, o: Order, vouts: seq<Vout>)
    requires PaidOnce(db) && Booked(db, db', o, vouts)
    ensures (forall i :: 0 <= i < |db'.vouts| ==> db'.vouts[i].orderId in db'.orders)
            <==> forall i :: 0 <= i < |vouts| ==> vouts[i].orderId == o.orderId || vouts[i].orderId in db.orders
  {
    var all, m := db.vouts + vouts, |db.vouts|;
    if forall i :: 0 <= i < |db'.vouts| ==> db'.vouts[i].orderId in db'.orders {
      forall i | 0 <= i < |vouts| ensures vouts[i].orderId == o.orderId || vouts[i].orderId in db.orders {
        assert all[m + i] == vouts[i] && db'.vouts[m + i].orderId in db'.orders;
      }
    }
    forall i | 0 <= i < |all| ensures all[i].orderId == if i < m then db.vouts[i].orderId else vouts[i - m].orderId {
    }
  }

  lemma BookedIff(db: Db, db': Db, o: Order, vouts: seq<Vout>)
    requires PaidOnce(db) && Booked(db, db', o, vouts)
    ensures PaidOnce(db') <==> VoutsFit(db, o, vouts)
  {
    BookedApart(db, db', o, vouts);
    BookedKnown(db, db', o, vouts);
    StoredApart(db, o);
    ApartJoined(db, o, db.vouts, vouts);
  }

  // An unclosed order that is not closed when a transaction's orders are initialised.
  ghost predicate StaysUnclosed(db: Db, txid: string, id: string) {
    Unclosed(db, id) && !(db.orders[id].txid == txid && db.orders[id].status == Aggregating && id in db.orderIds)
  }

  // No withdrawal of the reopened order has two vouts in it or is paid by another order that stays unclosed.
  ghost predicate NotRepaid(db: Db, txid: string, id: string) {
    forall i, j :: 0 <= i < |db.vouts| && 0 <= j < |db.vouts| && i != j
      && db.vouts[i].orderId == id && (db.vouts[j].orderId == id || StaysUnclosed(db, txid, db.vouts[j].orderId))
      ==> !SameWithdrawal(db.vouts[i], db.vouts[j])
  }

  ghost predicate PaysHarmlessly(db: Db, e: Event) {
    match e
    case OrderCreated(n, isProposer) => CreateSendOrder(db, n, isProposer).Err? || VoutsFit(db, n.order, n.vouts)
    case OrderRecovered(o, vins, vouts, _) =>
      HasOpenOrder(db, o.txid) || o.orderId in db.orders || vins == [] || vouts == [] || VoutsFit(db, o, vouts)
    case OrderPending(txid, ext, rec) =>
      || HasOrder(db, txid) || InsertRecovered(db, txid, rec).Err?
      || VoutsFit(db, PendingOrder(rec.order.value, ext), OwnedVouts(rec.vouts, rec.order.value.orderId))
    case WithdrawInitialized(txid, pid) =>
      var newest := NewestByTxid(db.orders, db.orderIds, txid);
      || UpdateWithdrawInitialized(db, txid, pid).Err?
      || newest.None? || db.orders[newest.value].status != Closed || NotRepaid(db, txid, newest.value)
    case _ => true
  }

  lemma CreatePaysIff(db: Db, n: NewOrder, isProposer: bool)
    requires PaidOnce(db)
    ensures PaidOnce(After(db, CreateSendOrder(db, n, isProposer))) <==> PaysHarmlessly(db, OrderCreated(n, isProposer))
  {
    var r := CreateSendOrder(db, n, isProposer);
    if r.Ok? {
      BookedIff(db, r.value, n.order, n.vouts);
    }
  }

  lemma RecoverPaysIff(db: Db, o: Order, vins: seq<Vin>, vouts: seq<Vout>, ids: seq<nat>)
    requires PaidOnce(db)
    ensures PaidOnce(After(db, RecoverSendOrder(db, o, vins, vouts, ids)))
            <==> PaysHarmlessly(db, OrderRecovered(o, vins, vouts, ids))
  {
    var r := RecoverSendOrder(db, o, vins, vouts, ids);
    if r.Ok? && !HasOpenOrder(db, o.txid) {
      BookedIff(db, r.value, o, vouts);
    }
  }

  lemma PendingBooked(db: Db, d: Db, o: Order, ext: string, vouts: seq<Vout>)
    requires Booked(db, d, o, vouts)
    ensures Booked(db, SetPending(d, o.orderId, ext), PendingOrder(o, ext), vouts)
  {
    assert SetPending(d, o.orderId, ext).orders == db.orders[o.orderId := PendingOrder(o, ext)];
  }

  lemma PendingPaysIff(db: Db, txid: string, ext: string, rec: Recovery)
    requires PaidOnce(db) && !HasOrder(db, txid)
    ensures PaidOnce(After(db, UpdateSendOrderPending(db, txid, ext, rec))) <==> PaysHarmlessly(db, OrderPending(txid, ext, rec))
  {
    var inserted := InsertRecovered(db, txid, rec);
    if inserted.Ok? {
      var o := rec.order.value;
      var vouts := OwnedVouts(rec.vouts, o.orderId);
      assert Booked(db, inserted.value, o, vouts);
      PendingBooked(db, inserted.value, o, ext, vouts);
      BookedIff(db, SetPending(inserted.value, o.orderId, ext), PendingOrder(o, ext), vouts);
    }
  }

  lemma UnclosedAfter(db: Db, db': Db, txid: string, id: string, x: string)
    requires HasStatuses(db, db', |db.orderIds|, txid, true)
    requires NewestByTxid(db.orders, db.orderIds, txid) == Some(id) && db.orders[id].status == Closed
    ensures Unclosed(db', x) <==> x == id || StaysUnclosed(db, txid, x)
  {
    assert db.orderIds[..|db.orderIds|] == db.orderIds;
  }

  lemma FewerUnclosed(db: Db, db': Db, txid: string, x: string)
    requires HasStatuses(db, db', |db.orderIds|, txid, true)
    requires var newest := NewestByTxid(db.orders, db.orderIds, txid);
             newest.None? || db.orders[newest.value].status != Closed
    ensures Unclosed(db', x) ==> Unclosed(db, x)
  {
    assert db.orderIds[..|db.orderIds|] == db.orderIds;
  }

  lemma ReopenPaysIff(db: Db, db': Db, txid: string, id: string)
    requires PaidOnce(db) && SameBooks(db, db')
    requires forall x :: Unclosed(db', x) <==> x == id || StaysUnclosed(db, txid, x)
    ensures PaidOnce(db') <==> NotRepaid(db, txid, id)
  {
    if PaidOnce(db') {
      forall i, j | 0 <= i < |db.vouts| && 0 <= j < |db.vouts| && i != j
        && db.vouts[i].orderId == id && (db.vouts[j].orderId == id || StaysUnclosed(db, txid, db.vouts[j].orderId))
        ensures !SameWithdrawal(db.vouts[i], db.vouts[j])
      {
        var a, b := if i < j then i else j, if i < j then j else i;
        assert Unclosed(db', db'.vouts[a].orderId) && Unclosed(db', db'.vouts[b].orderId);
        assert !SameWithdrawal(db'.vouts[a], db'.vouts[b]);
      }
    }
    if NotRepaid(db, txid, id) {
      forall i, j | 0 <= i < j < |db'.vouts| && Unclosed(db', db'.vouts[i].orderId) && Unclosed(db', db'.vouts[j].orderId)
        ensures !SameWithdrawal(db'.vouts[i], db'.vouts[j])
      {
        assert !SameWithdrawal(db.vouts[i], db.vouts[j]) && !SameWithdrawal(db.vouts[j], db.vouts[i]);
      }
    }
  }

  lemma InitializePaysIff(db: Db, txid: string, pid: nat)
    requires PaidOnce(db)
    ensures PaidOnce(After(db, UpdateWithdrawInitialized(db, txid, pid))) <==> PaysHarmlessly(db, WithdrawInitialized(txid, pid))
  {
    var newest, r := NewestByTxid(db.orders, db.orderIds, txid), UpdateWithdrawInitialized(db, txid, pid);
    if r.Ok? {
      InitializeBooks(db, |db.orderIds|, txid, true, pid);
      if newest.Some? && db.orders[newest.value].status == Closed {
        UnclosedAfterReopening(db, txid, pid, newest.value);
        ReopenPaysIff(db, r.value, txid, newest.value);
      } else {
        NoneReopened(db, txid, pid);
        FewerUnclosedKeeps(db, r.value);
      }
    }
  }

  lemma UnclosedAfterReopening(db: Db, txid: string, pid: nat, id: string)
    requires UpdateWithdrawInitialized(db, txid, pid).Ok?
    requires NewestByTxid(db.orders, db.orderIds, txid) == Some(id) && db.orders[id].status == Closed
    ensures forall x :: Unclosed(UpdateWithdrawInitialized(db, txid, pid).value, x) <==> x == id || StaysUnclosed(db, txid, x)
  {
    var db' := UpdateWithdrawInitialized(db, txid, pid).value;
    InitializeStatuses(db, |db.orderIds|, txid, true, pid);
    forall x ensures Unclosed(db', x) <==> x == id || StaysUnclosed(db, txid, x) {
      UnclosedAfter(db, db', txid, id, x);
    }
  }

  lemma NoneReopened(db: Db, txid: string, pid: nat)
    requires UpdateWithdrawInitialized(db, txid, pid).Ok?
    requires var newest := NewestByTxid(db.orders, db.orderIds, txid);
             newest.None? || db.orders[newest.value].status != Closed
    ensures forall x :: Unclosed(UpdateWithdrawInitialized(db, txid, pid).value, x) ==> Unclosed(db, x)
  {
    var db' := UpdateWithdrawInitialized(db, txid, pid).value;
    InitializeStatuses(db, |db.orderIds|, txid, true, pid);
    forall x | Unclosed(db', x) ensures Unclosed(db, x) {
      FewerUnclosed(db, db', txid, x);
    }
  }

  lemma AddingPaysIff(build: ScriptBuilder, db: Db, e: Event)
    requires PaidOnce(db) && (e.OrderCreated? || e.OrderRecovered?)
    ensures PaidOnce(Apply(build, db, e)) <==> PaysHarmlessly(db, e)
  {
    match e {
      case OrderCreated(n, isProposer) => CreatePaysIff(db, n, isProposer);
      case OrderRecovered(o, vins, vouts, ids) => RecoverPaysIff(db, o, vins, vouts, ids);
    }
  }

  lemma MessagePaysIff(build: ScriptBuilder, db: Db, e: Event)
    requires PaidOnce(db) && (e.WithdrawInitialized? || (e.OrderPending? && !HasOrder(db, e.txid)))
    ensures PaidOnce(Apply(build, db, e)) <==> PaysHarmlessly(db, e)
  {
    match e {
      case WithdrawInitialized(txid, pid) => InitializePaysIff(db, txid, pid);
      case OrderPending(txid, ext, rec) => PendingPaysIff(db, txid, ext, rec);
    }
  }

  // A step keeps every withdrawal paid at most once exactly when it pays harmlessly.
  lemma PaymentIff(build: ScriptBuilder, db: Db, e: Event)
    requires PaidOnce(db)
    ensures PaidOnce(Apply(build, db, e)) <==> PaysHarmlessly(db, e)
  {
    if e.OrderCreated? || e.OrderRecovered? {
      AddingPaysIff(build, db, e);
    } else if e.WithdrawInitialized? || (e.OrderPending? && !HasOrder(db, e.txid)) {
      MessagePaysIff(build, db, e);
    } else {
      SafeStepPaysOnce(build, db, e);
    }
  }

  // So over every run from the empty tables.
  lemma NeverPaidTwice(build: ScriptBuilder, es: seq<Event>)
    ensures Always(PaidOnce, build, EMPTY_DB, es) <==> EachStep(PaysHarmlessly, build, EMPTY_DB, es)
  {
    forall db, e | PaidOnce(db) ensures PaidOnce(Apply(build, db, e)) <==> PaysHarmlessly(db, e) {
      PaymentIff(build, db, e);
    }
    AlwaysIff(PaidOnce, PaysHarmlessly, build, EMPTY_DB, es);
  }

  // ---------- An order of the proposer ----------

  // The vouts of a proposer's order: the withdrawals in turn, then an output without one.
  ghost predicate ProperVouts(n: NewOrder) {
    && n.order.orderType == Withdrawal && n.order.status == Aggregating && |n.withdrawIds| <= |n.vouts|
    && forall i :: 0 <= i < |n.vouts| ==>
         && n.vouts[i].orderId == n.order.orderId
         && n.vouts[i].withdrawId == if i < |n.withdrawIds| then Some(n.withdrawIds[i]) else None
  }

  ghost predicate PaidByUnclosed(db: Db, id: nat) {
    exists i :: 0 <= i < |db.vouts| && Unclosed(db, db.vouts[i].orderId) && db.vouts[i].withdrawId == Some(id)
  }

  // A proposer's order takes different waiting withdrawals; it is harmless exactly when no unclosed order pays one
  // of them already.
  lemma ProposerPaysIff(db: Db, n: NewOrder)
    requires PaidOnce(db) && ProperVouts(n) && CreateSendOrder(db, n, true).Ok?
    ensures PaidOnce(CreateSendOrder(db, n, true).value) <==> forall id :: id in n.withdrawIds ==> !PaidByUnclosed(db, id)
  {
    CreatePaysIff(db, n, true);
    assert Distinct(n.withdrawIds);
    if VoutsFit(db, n.order, n.vouts) {
      forall id | id in n.withdrawIds ensures !PaidByUnclosed(db, id) {
        UnpaidBefore(db, n, id);
      }
    }
    if forall id :: id in n.withdrawIds ==> !PaidByUnclosed(db, id) {
      UnpaidFits(db, n);
    }
  }

  lemma UnpaidBefore(db: Db, n: NewOrder, id: nat)
    requires PaidOnce(db) && ProperVouts(n) && n.order.orderId !in db.orders && VoutsFit(db, n.order, n.vouts)
    requires id in n.withdrawIds
    ensures !PaidByUnclosed(db, id)
  {
    var j :| 0 <= j < |n.withdrawIds| && n.withdrawIds[j] == id;
    forall i | 0 <= i < |db.vouts| && Unclosed(db, db.vouts[i].orderId) ensures db.vouts[i].withdrawId != Some(id) {
      assert !SameWithdrawal(db.vouts[i], n.vouts[j]);
    }
  }

  lemma UnpaidFits(db: Db, n: NewOrder)
    requires PaidOnce(db) && ProperVouts(n) && n.order.orderId !in db.orders && Distinct(n.withdrawIds)
    requires forall id :: id in n.withdrawIds ==> !PaidByUnclosed(db, id)
    ensures VoutsFit(db, n.order, n.vouts)
  {
    forall i, j | 0 <= i < |db.vouts| && 0 <= j < |n.vouts|
      && UnclosedWith(db, n.order, db.vouts[i].orderId) && UnclosedWith(db, n.order, n.vouts[j].orderId)
      ensures !SameWithdrawal(db.vouts[i], n.vouts[j])
    {
      if j < |n.withdrawIds| {
        assert !PaidByUnclosed(db, n.withdrawIds[j]) && Unclosed(db, db.vouts[i].orderId);
      }
    }
  }

  // ---------- A run that pays one withdrawal twice ----------

  // A proposer's order is cleaned up, and its next order takes the withdrawal with another coin.
  function Requeued(): seq<Event> {
    OneOrder(true) + [Cleaned] + [OrderCreated(Paying("second", "tx2", 1, 7), true)]
  }

  // Both orders pay the withdrawal; the first one is closed, the second in some status.
  ghost predicate PaidByBoth(db: Db, second: Status, withdraw: Status) {
    && db.orderIds == ["first", "second"] && db.orders.Keys == {"first", "second"}
    && HasOrderIn(db, "first", "tx1", Closed) && HasOrderIn(db, "second", "tx2", second)
    && |db.vouts| == 2 && db.vouts[0].orderId == "first" && db.vouts[1].orderId == "second"
    && db.vouts[0].withdrawId == Some(7) && db.vouts[1].withdrawId == Some(7)
    && HasWithdraw(db, 7, withdraw) && db.withdraws[7].orderId == "second"
    && |db.vins| == 2 && db.vins[0].orderId == "first" && db.vins[1].orderId == "second"
    && db.vins[0].prev == Coin(0).outPoint && db.vins[1].prev == Coin(1).outPoint
    && db.utxos.Keys == {Coin(0).outPoint, Coin(1).outPoint}
  }

  lemma PaidByFirst(db: Db)
    requires PaidByBoth(db, Aggregating, Aggregating) || PaidByBoth(db, Closed, Create)
    ensures VinsOf(db.vins, "first") <= db.utxos.Keys
  {
  }

  lemma OrderedAgain(db: Db)
    requires OneOrdered(db, Closed) && Free(db, 1) && HasWithdraw(db, 7, Create)
    ensures var r := CreateSendOrder(db, Paying("second", "tx2", 1, 7), true);
            && r.Ok? && PaidByBoth(r.value, Aggregating, Aggregating)
            && r.value.utxos[Coin(1).outPoint].status == CoinPending
  {
    Pay(db, "second", "tx2", 1, 7, true);
  }

  lemma RequeuedFacts(build: ScriptBuilder)
    ensures var db := Run(build, EMPTY_DB, Requeued());
            PaidByBoth(db, Aggregating, Aggregating) && db.utxos[Coin(1).outPoint].status == CoinPending
  {
    var db := Run(build, EMPTY_DB, OneOrder(true));
    OneOrderFacts(build, true);
    CleansFirst(build, db);
    ClosedFirst(db);
    OrderedAgain(CloseOrder(db, "first"));
    Created(build, CloseOrder(db, "first"), Paying("second", "tx2", 1, 7), true);
    RunSnoc(build, EMPTY_DB, OneOrder(true), Cleaned);
    RunSnoc(build, EMPTY_DB, OneOrder(true) + [Cleaned], OrderCreated(Paying("second", "tx2", 1, 7), true));
  }

  lemma ReopenedBesideSecond(db: Db)
    requires PaidByBoth(db, Aggregating, Aggregating)
    ensures PaidOnce(db)
    ensures var r := UpdateWithdrawInitialized(db, "tx1", 1); r.Ok? && !PaidOnce(r.value)
  {
    PaidByFirst(db);
    ReopensFirst(db);
    InitializeBooks(db, |db.orderIds|, "tx1", true, 1);
    var db' := UpdateWithdrawInitialized(db, "tx1", 1).value;
    assert SameWithdrawal(db'.vouts[0], db'.vouts[1]);
  }

  // When the first order is then reopened, both orders pay the withdrawal.
  lemma ReopeningPaysTwice(build: ScriptBuilder)
    ensures var db := Run(build, EMPTY_DB, Requeued());
            PaidOnce(db) && (var r := UpdateWithdrawInitialized(db, "tx1", 1); r.Ok? && !PaidOnce(r.value))
  {
    RequeuedFacts(build);
    ReopenedBesideSecond(Run(build, EMPTY_DB, Requeued()));
  }
}
