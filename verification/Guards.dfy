// Why the proposer's check of a withdrawal's status keeps it from being paid twice, and when it does not.
//
// An order of the proposer takes waiting withdrawals only.  As long as no waiting withdrawal is paid by an order that
// is not closed, that is enough.  The node's own steps keep it so; reopening a closed order does not.
module Guards {
  import opened Common
  import opened Models
  import opened WalletRows
  import opened OrderSteps
  import opened CoinSteps
  import opened TaskSteps
  import opened WalletRuns
  import opened Allocation
  import opened OrderGraph
  import opened Reopening
  import opened Carriers
  import opened Witnesses

  // ---------- The invariant ----------

  // The withdrawal is in the table and does not wait; if it aggregates, it does so for the order.
  ghost predicate Reserved(db: Db, orderId: string, id: nat) {
    && id in db.withdraws && db.withdraws[id].status != Create
    && (db.withdraws[id].status == Aggregating ==>
          && db.withdraws[id].orderId == orderId
          && orderId in db.orders && db.orders[orderId].status == Aggregating)
  }

  ghost predicate ReservedBy(db: Db, v: Vout) {
    v.withdrawId.Some? && Unclosed(db, v.orderId) ==> Reserved(db, v.orderId, v.withdrawId.value)
  }

  ghost predicate Guarded(db: Db) {
    forall i :: 0 <= i < |db.vouts| ==> ReservedBy(db, db.vouts[i])
  }

  ghost predicate InOrder(db: Db) {
    PaidOnce(db) && Guarded(db) && Listed(db)
  }

  // ---------- Steps that add no order ----------

  // No order leaves the closed ones, and what is reserved for an order stays reserved.
  ghost predicate KeepsReserved(db: Db, db': Db) {
    && SameBooks(db, db')
    && (forall id :: Unclosed(db', id) ==> Unclosed(db, id))
    && forall i :: 0 <= i < |db.vouts| && ReservedBy(db, db.vouts[i]) ==> ReservedBy(db', db.vouts[i])
  }

  lemma ReservedKept(db: Db, db': Db)
    requires PaidOnce(db) && Guarded(db) && KeepsReserved(db, db')
    ensures PaidOnce(db') && Guarded(db')
  {
    FewerUnclosedKeeps(db, db');
    forall i | 0 <= i < |db'.vouts| ensures ReservedBy(db', db'.vouts[i]) {
      assert ReservedBy(db', db.vouts[i]);
    }
  }

  lemma ReservedStays(db: Db)
    ensures KeepsReserved(db, db)
  {
  }

  lemma ReservedCompose(a: Db, b: Db, c: Db)
    requires KeepsReserved(a, b) && KeepsReserved(b, c)
    ensures KeepsReserved(a, c)
  {
    forall i | 0 <= i < |a.vouts| && ReservedBy(a, a.vouts[i]) ensures ReservedBy(c, a.vouts[i]) {
      assert ReservedBy(b, a.vouts[i]) && ReservedBy(b, b.vouts[i]) && ReservedBy(c, b.vouts[i]);
    }
  }

  // Withdrawals that change status become neither waiting nor aggregating, and unclosed orders leave the aggregating
  // status only with their withdrawals.
  lemma StatusesKeep(db: Db, db': Db)
    requires SameBooks(db, db') && (forall id :: Unclosed(db', id) ==> Unclosed(db, id))
    requires forall w :: w in db.withdraws ==>
               && w in db'.withdraws && db'.withdraws[w].orderId == db.withdraws[w].orderId
               && (db'.withdraws[w].status == db.withdraws[w].status || db'.withdraws[w].status !in {Create, Aggregating})
    requires forall i :: 0 <= i < |db.vouts| && db.vouts[i].withdrawId.Some? ==> StaysWith(db, db', db.vouts[i].orderId)
    ensures KeepsReserved(db, db')
  {
  }

  // An order that aggregates goes on to, is closed, or has no aggregating withdrawal afterwards.
  ghost predicate StaysWith(db: Db, db': Db, id: string) {
    id in db.orders && db.orders[id].status == Aggregating && Unclosed(db', id) && db'.orders[id].status != Aggregating
    ==> forall w :: w in db'.withdraws && db'.withdraws[w].orderId == id ==> db'.withdraws[w].status != Aggregating
  }

  lemma InitializeReserved(db: Db, id: string, newest: bool, pid: nat)
    requires id in db.orders && (newest ==> db.orders[id].status != Closed) && InitializeOrder(db, id, newest, pid).Ok?
    ensures KeepsReserved(db, InitializeOrder(db, id, newest, pid).value)
  {
    var db' := InitializeOrder(db, id, newest, pid).value;
    InitializeOneBooks(db, id, newest, pid);
    InitializeOneStatus(db, id, newest, pid);
    StatusesKeep(db, db');
  }

  lemma {:induction false} InitializeAllReserved(db: Db, k: nat, txid: string, newest: bool, pid: nat)
    requires k <= |db.orderIds| && (newest ==> NewestOpen(db, k, txid))
    ensures var r := InitializeOrders(db, k, txid, newest, pid); r.Ok? ==> KeepsReserved(db, r.value)
    decreases k
  {
    ReservedStays(db);
    if k > 0 {
      var id := db.orderIds[k - 1];
      assert db.orderIds[..k][..k - 1] == db.orderIds[..k - 1];
      if id !in db.orders || db.orders[id].txid != txid {
        InitializeAllReserved(db, k - 1, txid, newest, pid);
      } else {
        var r := InitializeOrder(db, id, newest, pid);
        if r.Ok? {
          InitializeReserved(db, id, newest, pid);
          InitializeAllReserved(r.value, k - 1, txid, false, pid);
          var r' := InitializeOrders(r.value, k - 1, txid, false, pid);
          if r'.Ok? {
            ReservedCompose(db, r.value, r'.value);
          }
        }
      }
    }
  }

  lemma FinalizeReserved(db: Db, id: string, pid: Option<nat>)
    requires id in db.orders && FinalizeOrder(db, id, pid).Ok?
    ensures KeepsReserved(db, FinalizeOrder(db, id, pid).value)
  {
    FinalizeOneBooks(db, id, pid);
    StatusesKeep(db, FinalizeOrder(db, id, pid).value);
  }

  lemma {:induction false} FinalizeAllReserved(db: Db, k: nat, txid: string, pid: Option<nat>)
    requires k <= |db.orderIds|
    ensures var r := FinalizeOrders(db, k, txid, pid); r.Ok? ==> KeepsReserved(db, r.value)
    decreases k
  {
    ReservedStays(db);
    if k > 0 {
      var id := db.orderIds[k - 1];
      if id !in db.orders || db.orders[id].txid != txid {
        FinalizeAllReserved(db, k - 1, txid, pid);
      } else {
        var r := FinalizeOrder(db, id, pid);
        if r.Ok? {
          FinalizeReserved(db, id, pid);
          FinalizeAllReserved(r.value, k - 1, txid, pid);
          var r' := FinalizeOrders(r.value, k - 1, txid, pid);
          if r'.Ok? {
            ReservedCompose(db, r.value, r'.value);
          }
        }
      }
    }
  }

  lemma ByTxidReserved(db: Db, txid: string, status: Status)
    requires status !in {Create, Aggregating}
    ensures KeepsReserved(db, UpdateOtherStatusByTxid(db, txid, status))
  {
    StatusesKeep(db, UpdateOtherStatusByTxid(db, txid, status));
  }

  lemma FinalizeTxidReserved(db: Db, txid: string, pid: Option<nat>)
    ensures KeepsReserved(db, After(db, FinalizeTxid(db, txid, pid)))
  {
    ReservedStays(db);
    var r := FinalizeOrders(db, |db.orderIds|, txid, pid);
    FinalizeAllReserved(db, |db.orderIds|, txid, pid);
    if HasOrder(db, txid) && r.Ok? {
      ByTxidReserved(r.value, txid, Processed);
      ReservedCompose(db, r.value, UpdateOtherStatusByTxid(r.value, txid, Processed));
    }
  }

  lemma TaskProcessedReserved(db: Db, taskId: nat)
    ensures KeepsReserved(db, After(db, UpdateSafeboxTaskProcessed(db, taskId)))
  {
    ReservedStays(db);
    if IsProcessing(db, taskId) {
      var t := db.tasks[taskId];
      var d := SetTask(db, taskId, t.(status := Processed));
      FinalizeTxidReserved(d, t.timelockTxid, None);
      ReservedCompose(db, d, After(d, FinalizeTxid(d, t.timelockTxid, None)));
    }
  }

  // An order that may be acknowledged without its withdrawals: it does not aggregate, or pays none.
  ghost predicate MayAdvance(db: Db, txid: string) {
    var newest := NewestByTxid(db.orders, db.orderIds, txid);
    newest.None? || db.orders[newest.value].status != Aggregating
    || forall i :: 0 <= i < |db.vouts| && db.vouts[i].orderId == newest.value ==> db.vouts[i].withdrawId.None?
  }

  lemma InitlizedReserved(db: Db, txid: string, ext: string)
    requires MayAdvance(db, txid)
    ensures KeepsReserved(db, UpdateSendOrderInitlized(db, txid, ext))
  {
    StatusesKeep(db, UpdateSendOrderInitlized(db, txid, ext));
  }

  lemma TaskInitOkReserved(db: Db, taskId: nat, txid: string, out: nat)
    requires MayAdvance(db, txid)
    ensures KeepsReserved(db, After(db, UpdateSafeboxTaskInitOK(db, taskId, txid, out)))
  {
    TaskInitOkBooks(db, taskId, txid, out);
    StatusesKeep(db, After(db, UpdateSafeboxTaskInitOK(db, taskId, txid, out)));
  }

  lemma PendingReserved(db: Db, id: string, ext: string)
    requires id in db.orders
    ensures KeepsReserved(db, SetPending(db, id, ext))
  {
    SetPendingBooks(db, id, ext);
    StatusesKeep(db, SetPending(db, id, ext));
  }

  lemma ConfirmReserved(db: Db, id: string, block: nat)
    requires id in db.orders && ConfirmOrder(db, id, block).Ok? && !Final(db.orders[id].status)
    ensures KeepsReserved(db, ConfirmOrder(db, id, block).value)
  {
    StatusesKeep(db, ConfirmOrder(db, id, block).value);
  }

  lemma ConfirmedReserved(db: Db, txid: string, block: nat)
    ensures KeepsReserved(db, After(db, UpdateSendOrderConfirmed(db, txid, block)))
  {
    ReservedStays(db);
    var newest := NewestByTxid(db.orders, db.orderIds, txid);
    if newest.None? {
      ByTxidReserved(db, txid, Confirmed);
      ByTxidReserved(db, txid, Processed);
    } else if !Final(db.orders[newest.value].status) && ConfirmOrder(db, newest.value, block).Ok? {
      ConfirmReserved(db, newest.value, block);
    }
  }

  // Closing an order frees withdrawals that aggregate for it, which no other order may count on.
  lemma CloseReserved(db: Db, id: string)
    requires id in db.orders && db.orders[id].status == Aggregating
    ensures KeepsReserved(db, CloseOrder(db, id))
  {
    CloseBooks(db, id);
  }

  // Without an aggregating order no paid withdrawal aggregates, so resetting the stray ones frees none of them.
  lemma StrayReserved(db: Db)
    requires Listed(db) && FirstInStatus(db.orders, db.orderIds, Aggregating).None?
    ensures KeepsReserved(db, CleanProcessingWithdraw(db))
  {
  }

  lemma CleanedReserved(db: Db)
    requires Listed(db)
    ensures KeepsReserved(db, CleanProcessingWithdraw(db))
  {
    var id := FirstInStatus(db.orders, db.orderIds, Aggregating);
    if id.Some? {
      CloseReserved(db, id.value);
    } else {
      StrayReserved(db);
    }
  }

  // ---------- Orders of the proposer ----------

  // An order that pays no withdrawal, such as a consolidation.
  ghost predicate PaysNone(n: NewOrder) {
    forall i :: 0 <= i < |n.vouts| ==> n.vouts[i].orderId == n.order.orderId && n.vouts[i].withdrawId.None?
  }

  // A waiting withdrawal is not paid by an order that is not closed.
  ghost predicate WaitingUnpaid(db: Db) {
    forall id: nat :: HasWithdraw(db, id, Create) ==> !PaidByUnclosed(db, id)
  }

  lemma GuardedIsUnpaid(db: Db)
    requires Guarded(db)
    ensures WaitingUnpaid(db)
  {
    forall id: nat | HasWithdraw(db, id, Create) ensures !PaidByUnclosed(db, id) {
      forall i | 0 <= i < |db.vouts| && Unclosed(db, db.vouts[i].orderId) ensures db.vouts[i].withdrawId != Some(id) {
        assert ReservedBy(db, db.vouts[i]);
      }
    }
  }

  // The check of the status is enough as long as no waiting withdrawal is paid.
  lemma ProposerPaysOnce(db: Db, n: NewOrder)
    requires PaidOnce(db) && WaitingUnpaid(db) && ProperVouts(n) && CreateSendOrder(db, n, true).Ok?
    ensures PaidOnce(CreateSendOrder(db, n, true).value)
  {
    forall id | id in n.withdrawIds ensures !PaidByUnclosed(db, id) {
      assert HasWithdraw(db, id, Create);
    }
    ProposerPaysIff(db, n);
  }

  function OrderOn(orderId: string, op: OutPoint, id: nat): NewOrder {
    NewOrder(Order(orderId, "", Withdrawal, Aggregating, 0, 0, ""), [op], [id], [],
             [Vin(orderId, op, P2WPKH, Aggregating)], [Vout(orderId, "", 0, Some(id), 1, "", Aggregating)])
  }

  // And only then, if there is a coin to spend and a fresh order id.
  lemma StatusGuardIff(db: Db, op: OutPoint, orderId: string)
    requires PaidOnce(db) && op in db.utxos && Spendable(db.utxos[op]) && orderId !in db.orders
    ensures (forall n :: ProperVouts(n) && CreateSendOrder(db, n, true).Ok? ==> PaidOnce(CreateSendOrder(db, n, true).value))
            <==> WaitingUnpaid(db)
  {
    if WaitingUnpaid(db) {
      forall n | ProperVouts(n) && CreateSendOrder(db, n, true).Ok? ensures PaidOnce(CreateSendOrder(db, n, true).value) {
        ProposerPaysOnce(db, n);
      }
    } else {
      var id :| HasWithdraw(db, id, Create) && PaidByUnclosed(db, id);
      PaidWaiting(db, op, orderId, id);
    }
  }

  lemma PaidWaiting(db: Db, op: OutPoint, orderId: string, id: nat)
    requires PaidOnce(db) && op in db.utxos && Spendable(db.utxos[op]) && orderId !in db.orders
    requires HasWithdraw(db, id, Create) && PaidByUnclosed(db, id)
    ensures var n := OrderOn(orderId, op, id);
            ProperVouts(n) && CreateSendOrder(db, n, true).Ok? && !PaidOnce(CreateSendOrder(db, n, true).value)
  {
    var n := OrderOn(orderId, op, id);
    assert CoinsFree(db.utxos, n.coins) && WithdrawsTakeable(db.withdraws, n.withdrawIds, true);
    assert id in n.withdrawIds;
    ProposerPaysIff(db, n);
  }

  lemma TakenIsReserved(db: Db, n: NewOrder)
    requires InOrder(db) && ProperVouts(n) && CreateSendOrder(db, n, true).Ok?
    ensures Guarded(CreateSendOrder(db, n, true).value)
  {
    var db' := CreateSendOrder(db, n, true).value;
    forall i | 0 <= i < |db'.vouts| ensures ReservedBy(db', db'.vouts[i]) {
      if i < |db.vouts| {
        assert ReservedBy(db, db.vouts[i]) && db.vouts[i].orderId in db.orders;
      } else {
        assert db'.vouts[i] == n.vouts[i - |db.vouts|];
        if i - |db.vouts| < |n.withdrawIds| {
          assert n.withdrawIds[i - |db.vouts|] in n.withdrawIds;
        }
      }
    }
  }

  lemma UnpayingIsGuarded(db: Db, n: NewOrder)
    requires InOrder(db) && PaysNone(n) && CreateSendOrder(db, n, true).Ok?
    ensures PaidOnce(CreateSendOrder(db, n, true).value) && Guarded(CreateSendOrder(db, n, true).value)
  {
    var db' := CreateSendOrder(db, n, true).value;
    CreatePaysIff(db, n, true);
    forall i | 0 <= i < |db'.vouts| ensures ReservedBy(db', db'.vouts[i]) {
      if i < |db.vouts| {
        assert ReservedBy(db, db.vouts[i]) && db.vouts[i].orderId in db.orders;
      } else {
        assert db'.vouts[i] == n.vouts[i - |db.vouts|];
      }
    }
  }

  lemma CreateInOrder(db: Db, n: NewOrder)
    requires InOrder(db) && (ProperVouts(n) || PaysNone(n))
    ensures InOrder(After(db, CreateSendOrder(db, n, true)))
  {
    if CreateSendOrder(db, n, true).Ok? {
      CreateMoves(db, n, true);
      if ProperVouts(n) {
        GuardedIsUnpaid(db);
        ProposerPaysOnce(db, n);
        TakenIsReserved(db, n);
      } else {
        UnpayingIsGuarded(db, n);
      }
    }
  }

  // ---------- Runs of the node's own steps ----------

  // Orders of the proposer itself, messages about known orders, and no closed order reopened.
  ghost predicate Careful(db: Db, e: Event) {
    match e
    case OrderCreated(n, isProposer) => isProposer && (ProperVouts(n) || PaysNone(n))
    case OrderRecovered(o, _, _, _) => HasOpenOrder(db, o.txid)
    case OrderPending(txid, _, _) => HasOrder(db, txid)
    case OrderInitialized(txid, _) => MayAdvance(db, txid)
    case TaskInitOk(_, txid, _) => MayAdvance(db, txid)
    case WithdrawInitialized(txid, _) => NewestOpen(db, |db.orderIds|, txid)
    case _ => true
  }

  lemma RowEventReserved(build: ScriptBuilder, db: Db, e: Event)
    requires IsCoinEvent(e) || IsPlainTaskEvent(e)
    ensures KeepsReserved(db, Apply(build, db, e))
  {
    if IsCoinEvent(e) {
      CoinEventFrame(build, db, e);
    } else {
      TaskEventFrame(build, db, e);
    }
  }

  lemma WithdrawEventReserved(db: Db, e: Event)
    requires IsWithdrawEvent(e)
    ensures KeepsReserved(db, After(db, TryWithdraw(db, e)))
  {
  }

  lemma TaskOrderReserved(db: Db, e: Event)
    requires Careful(db, e) && (e.TaskProcessed? || e.TaskInitOk?)
    ensures KeepsReserved(db, After(db, TryTask(db, e)))
  {
    match e {
      case TaskProcessed(id) => TaskProcessedReserved(db, id);
      case TaskInitOk(id, txid, out) => TaskInitOkReserved(db, id, txid, out);
    }
  }

  lemma MarkReserved(db: Db, e: Event)
    requires Careful(db, e) && Listed(db)
    requires e.OrderInitialized? || e.OrderPending? || e.CleanedById? || e.Cleaned? || e.OrderRecovered?
    ensures KeepsReserved(db, After(db, TryOrder(db, e)))
  {
    ReservedStays(db);
    match e {
      case OrderInitialized(txid, ext) => InitlizedReserved(db, txid, ext);
      case OrderPending(txid, ext, rec) => PendingReserved(db, NewestByTxid(db.orders, db.orderIds, txid).value, ext);
      case CleanedById(id) => if id in db.orders && db.orders[id].status == Aggregating { CloseReserved(db, id); }
      case Cleaned => CleanedReserved(db);
      case OrderRecovered(o, vins, vouts, ids) =>
    }
  }

  lemma SettleReserved(db: Db, e: Event)
    requires Careful(db, e) && (e.OrderConfirmed? || e.WithdrawInitialized? || e.WithdrawFinalized?)
    ensures KeepsReserved(db, After(db, TryOrder(db, e)))
  {
    ReservedStays(db);
    match e {
      case OrderConfirmed(txid, block) => ConfirmedReserved(db, txid, block);
      case WithdrawInitialized(txid, pid) => InitializeAllReserved(db, |db.orderIds|, txid, true, pid);
      case WithdrawFinalized(txid, pid) => FinalizeTxidReserved(db, txid, Some(pid));
    }
  }

  lemma OtherReserved(build: ScriptBuilder, db: Db, e: Event)
    requires Careful(db, e) && Listed(db) && !e.OrderCreated?
    ensures KeepsReserved(db, Apply(build, db, e))
  {
    if IsCoinEvent(e) || IsPlainTaskEvent(e) {
      RowEventReserved(build, db, e);
    } else if IsWithdrawEvent(e) {
      WithdrawEventReserved(db, e);
    } else if IsTaskEvent(e) {
      TaskOrderReserved(db, e);
    } else if e.OrderConfirmed? || e.WithdrawInitialized? || e.WithdrawFinalized? {
      SettleReserved(db, e);
    } else {
      MarkReserved(db, e);
    }
  }

  lemma CarefulStep(build: ScriptBuilder, db: Db, e: Event)
    requires InOrder(db) && Careful(db, e)
    ensures InOrder(Apply(build, db, e))
  {
    if e.OrderCreated? {
      CreateInOrder(db, e.n);
    } else {
      OtherReserved(build, db, e);
      OrderStep(build, db, e);
      ReservedKept(db, Apply(build, db, e));
    }
  }

  // Over every run of such steps no withdrawal is ever paid by two orders that are not closed.
  lemma NodePaysOnce(build: ScriptBuilder, es: seq<Event>)
    requires EachStep(Careful, build, EMPTY_DB, es)
    ensures Always(InOrder, build, EMPTY_DB, es)
  {
    forall db, e | InOrder(db) && Careful(db, e) ensures InOrder(Apply(build, db, e)) {
      CarefulStep(build, db, e);
    }
    AlwaysKept(InOrder, Careful, build, EMPTY_DB, es);
  }

  // ---------- A run after which the status check is not enough ----------

  // The second order is cleaned up too, and the first one, reopened, misses its withdrawal.
  function Reopened(): seq<Event> {
    Requeued() + [Cleaned] + [WithdrawInitialized("tx1", 1)]
  }

  lemma SecondClosed(db: Db)
    requires PaidByBoth(db, Aggregating, Aggregating) && db.utxos[Coin(1).outPoint].status == CoinPending
    ensures PaidByBoth(CloseOrder(db, "second"), Closed, Create) && Free(CloseOrder(db, "second"), 1)
  {
    assert Coin(1).outPoint in VinsOf(db.vins, "second");
  }

  lemma CleansSecond(build: ScriptBuilder, db: Db)
    requires db.orderIds == ["first", "second"] && HasOrderIn(db, "first", "tx1", Closed)
    requires HasOrderIn(db, "second", "tx2", Aggregating)
    ensures Apply(build, db, Cleaned) == CloseOrder(db, "second")
  {
    assert FirstInStatus(db.orders, db.orderIds, Aggregating) == Some("second");
    assert Try(build, db, Cleaned) == Ok(CleanProcessingWithdraw(db));
  }

  // The first order is open again and pays the withdrawal, which waits.
  ghost predicate WaitsThoughPaid(db: Db) {
    && db.orderIds == ["first", "second"] && db.orders.Keys == {"first", "second"}
    && HasOrderIn(db, "first", "tx1", Init) && HasOrderIn(db, "second", "tx2", Closed)
    && |db.vouts| == 2 && db.vouts[0].orderId == "first" && db.vouts[1].orderId == "second"
    && db.vouts[0].withdrawId == Some(7) && HasWithdraw(db, 7, Create) && Free(db, 1)
  }

  lemma FirstReopened(db: Db)
    requires PaidByBoth(db, Closed, Create) && Free(db, 1)
    ensures var r := UpdateWithdrawInitialized(db, "tx1", 1); r.Ok? && WaitsThoughPaid(r.value)
  {
    PaidByFirst(db);
    OnlyFirst(db);
    InitializeOneStatus(db, "first", true, 1);
    InitializeOneBooks(db, "first", true, 1);
  }

  lemma Initialised(build: ScriptBuilder, db: Db, txid: string, pid: nat)
    requires UpdateWithdrawInitialized(db, txid, pid).Ok?
    ensures Apply(build, db, WithdrawInitialized(txid, pid)) == UpdateWithdrawInitialized(db, txid, pid).value
  {
  }

  lemma ReopenedFacts(build: ScriptBuilder)
    ensures WaitsThoughPaid(Run(build, EMPTY_DB, Reopened()))
  {
    var db := Run(build, EMPTY_DB, Requeued());
    RequeuedFacts(build);
    CleansSecond(build, db);
    SecondClosed(db);
    FirstReopened(CloseOrder(db, "second"));
    Initialised(build, CloseOrder(db, "second"), "tx1", 1);
    RunSnoc(build, EMPTY_DB, Requeued(), Cleaned);
    RunSnoc(build, EMPTY_DB, Requeued() + [Cleaned], WithdrawInitialized("tx1", 1));
  }

  lemma PaidAgain(db: Db)
    requires WaitsThoughPaid(db)
    ensures PaidOnce(db) && !WaitingUnpaid(db)
    ensures var r := CreateSendOrder(db, Paying("third", "tx3", 1, 7), true); r.Ok? && !PaidOnce(r.value)
  {
    assert Unclosed(db, db.vouts[0].orderId) && PaidByUnclosed(db, 7);
    Pay(db, "third", "tx3", 1, 7, true);
    assert 7 in Paying("third", "tx3", 1, 7).withdrawIds;
    ProposerPaysIff(db, Paying("third", "tx3", 1, 7));
  }

  // Nothing is paid twice yet, but the proposer's next order passes the status check and pays the withdrawal again.
  lemma WaitingPaidTwice(build: ScriptBuilder)
    ensures var db := Run(build, EMPTY_DB, Reopened());
            && PaidOnce(db) && !WaitingUnpaid(db)
            && (var r := CreateSendOrder(db, Paying("third", "tx3", 1, 7), true); r.Ok? && !PaidOnce(r.value))
  {
    ReopenedFacts(build);
    PaidAgain(Run(build, EMPTY_DB, Reopened()));
  }
}
