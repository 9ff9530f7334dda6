// One unfinished safebox task per deposit address, and finished tasks stay finished.
module SafeboxTasks {
  import opened Common
  import opened Models
  import opened WalletRows
  import opened OrderSteps
  import opened CoinSteps
  import opened TaskSteps
  import opened WalletRuns
  import opened Witnesses

  ghost predicate OneTaskPerAddress(db: Db) {
    && (forall id :: id in db.tasks ==> id in db.taskIds)
    && forall a, b :: a in db.tasks && b in db.tasks && a != b
         && !Finished(db.tasks[a].status) && !Finished(db.tasks[b].status)
         ==> db.tasks[a].depositAddress != db.tasks[b].depositAddress
  }

  // Known tasks keep their address, and finished ones stay finished.
  ghost predicate TasksKept(before: map<nat, Task>, after: map<nat, Task>) {
    forall id :: id in before ==>
      && id in after && after[id].depositAddress == before[id].depositAddress
      && (Finished(before[id].status) ==> Finished(after[id].status))
  }

  ghost predicate TasksStep(db: Db, db': Db) {
    TasksKept(db.tasks, db'.tasks) && (OneTaskPerAddress(db) ==> OneTaskPerAddress(db'))
  }

  lemma SameTasksStep(db: Db, db': Db)
    requires db'.taskIds == db.taskIds && db'.tasks.Keys == db.tasks.Keys && TasksKept(db.tasks, db'.tasks)
    ensures TasksStep(db, db')
  {
  }

  lemma TasksStay(db: Db)
    ensures TasksStep(db, db)
  {
  }

  // ---------- Steps on orders ----------

  lemma CreateTasks(db: Db, n: NewOrder, isProposer: bool)
    ensures TasksStep(db, After(db, CreateSendOrder(db, n, isProposer)))
  {
    var r := CreateSendOrder(db, n, isProposer);
    if r.Ok? {
      if n.order.orderType == Safebox {
        assert TasksTakeable(db.tasks, n.taskIds, isProposer);
      }
      SameTasksStep(db, r.value);
    }
  }

  lemma CloseTasks(db: Db, id: string)
    requires id in db.orders
    ensures TasksStep(db, CloseOrder(db, id))
  {
    SameTasksStep(db, CloseOrder(db, id));
  }

  lemma {:induction false} FinalizeTasks(db: Db, k: nat, txid: string, pid: Option<nat>)
    requires k <= |db.orderIds|
    ensures var r := FinalizeOrders(db, k, txid, pid); r.Ok? ==> r.value.tasks == db.tasks && r.value.taskIds == db.taskIds
    decreases k
  {
    if k > 0 {
      var id := db.orderIds[k - 1];
      if id !in db.orders || db.orders[id].txid != txid {
        FinalizeTasks(db, k - 1, txid, pid);
      } else {
        var r := FinalizeOrder(db, id, pid);
        if r.Ok? {
          FinalizeOneTasks(db, id, pid);
          FinalizeTasks(r.value, k - 1, txid, pid);
        }
      }
    }
  }

  lemma FinalizeOneTasks(db: Db, id: string, pid: Option<nat>)
    requires id in db.orders && FinalizeOrder(db, id, pid).Ok?
    ensures FinalizeOrder(db, id, pid).value.tasks == db.tasks
    ensures FinalizeOrder(db, id, pid).value.taskIds == db.taskIds
  {
  }

  lemma FinalizeTxidTasks(db: Db, txid: string, pid: Option<nat>)
    ensures TasksStep(db, After(db, FinalizeTxid(db, txid, pid)))
  {
    var r := FinalizeTxid(db, txid, pid);
    if HasOrder(db, txid) && r.Ok? {
      FinalizeTasks(db, |db.orderIds|, txid, pid);
      SameTasksStep(db, r.value);
    }
  }

  lemma {:induction false} InitializeTasks(db: Db, k: nat, txid: string, newest: bool, pid: nat)
    requires k <= |db.orderIds|
    ensures var r := InitializeOrders(db, k, txid, newest, pid);
            r.Ok? ==> r.value.tasks == db.tasks && r.value.taskIds == db.taskIds
    decreases k
  {
    if k > 0 {
      var id := db.orderIds[k - 1];
      if id !in db.orders || db.orders[id].txid != txid {
        InitializeTasks(db, k - 1, txid, newest, pid);
      } else {
        var r := InitializeOrder(db, id, newest, pid);
        if r.Ok? {
          InitializeTasks(r.value, k - 1, txid, false, pid);
        }
      }
    }
  }

  // ---------- Task steps ----------

  lemma OneTaskStep(db: Db, db': Db, id: nat)
    requires id in db.tasks && db'.taskIds == db.taskIds && id in db'.tasks
    requires db'.tasks == db.tasks[id := db'.tasks[id]]
    requires db'.tasks[id].depositAddress == db.tasks[id].depositAddress
    requires Finished(db.tasks[id].status) ==> Finished(db'.tasks[id].status)
    ensures TasksStep(db, db')
  {
    SameTasksStep(db, db');
  }

  lemma CreateTaskStep(build: ScriptBuilder, db: Db, t: Task)
    ensures TasksStep(db, Apply(build, db, TaskCreated(t)))
  {
    var r := CreateSafeboxTask(db, t);
    if r.Ok? && OneTaskPerAddress(db) {
      forall a | a in db.tasks && !Finished(db.tasks[a].status) ensures db.tasks[a].depositAddress != t.depositAddress {
        assert a in db.taskIds;
        assert !ProcessingByAddress(t.depositAddress)(db.tasks[a]);
      }
    }
  }

  lemma CancelTaskStep(build: ScriptBuilder, db: Db, taskId: nat)
    ensures TasksStep(db, Apply(build, db, TaskCancelled(taskId)))
  {
    if IsProcessing(db, taskId) {
      OneTaskStep(db, UpdateSafeboxTaskCancelled(db, taskId), taskId);
    }
  }

  lemma CompleteTaskStep(build: ScriptBuilder, db: Db, taskId: nat)
    ensures TasksStep(db, Apply(build, db, TaskCompleted(taskId)))
  {
    var r := UpdateSafeboxTaskCompleted(db, taskId);
    if r.Ok? {
      OneTaskStep(db, r.value, taskId);
    }
  }

  lemma ReceivedOkTaskStep(build: ScriptBuilder, db: Db, taskId: nat, fundingTxid: string, txOut: nat)
    ensures TasksStep(db, Apply(build, db, TaskReceivedOk(taskId, fundingTxid, txOut)))
  {
    var r := UpdateSafeboxTaskReceivedOK(db, taskId, fundingTxid, txOut);
    if r.Ok? {
      OneTaskStep(db, r.value, taskId);
    }
  }

  lemma InitTaskStep(build: ScriptBuilder, db: Db, address: string, txid: string, out: nat)
    ensures TasksStep(db, Apply(build, db, TaskInit(address, txid, out)))
  {
    var r := UpdateSafeboxTaskInit(db, address, txid, out);
    if r.Ok? {
      OneTaskStep(db, r.value, FirstTask(db.tasks, db.taskIds, ProcessingByTimelockAddress(address)).value);
    }
  }

  lemma ReceivedTask(db: Db, txid: string, evmAddr: string, out: nat, amount: nat, now: int)
    ensures TasksStep(db, UpdateSafeboxTaskReceived(db, txid, evmAddr, out, amount, now))
  {
    var id := FirstTask(db.tasks, db.taskIds, ProcessingByAddress(evmAddr));
    if id.Some? {
      OneTaskStep(db, UpdateSafeboxTaskReceived(db, txid, evmAddr, out, amount, now), id.value);
    }
  }

  lemma ReceivedTaskStep(build: ScriptBuilder, db: Db, txid: string, evmAddr: string, out: nat, amount: nat, now: int)
    ensures TasksStep(db, Apply(build, db, TaskReceived(txid, evmAddr, out, amount, now)))
  {
    ReceivedTask(db, txid, evmAddr, out, amount, now);
  }

  lemma RevertTaskStep(build: ScriptBuilder, db: Db, txid: string)
    ensures TasksStep(db, Apply(build, db, TaskReverted(txid)))
  {
    var r := RevertSafeboxTask(db, txid);
    assert Try(build, db, TaskReverted(txid)) == r;
    if r.Ok? {
      OneTaskStep(db, r.value, FirstTask(db.tasks, db.taskIds, InitByTimelockTxid(txid)).value);
    }
  }

  lemma TaskInitOkTasks(build: ScriptBuilder, db: Db, taskId: nat, txid: string, out: nat)
    ensures TasksStep(db, Apply(build, db, TaskInitOk(taskId, txid, out)))
  {
    var r := UpdateSafeboxTaskInitOK(db, taskId, txid, out);
    if r.Ok? {
      OneTaskStep(db, r.value, taskId);
    }
  }

  lemma TaskProcessedTasks(build: ScriptBuilder, db: Db, taskId: nat)
    ensures TasksStep(db, Apply(build, db, TaskProcessed(taskId)))
  {
    if IsProcessing(db, taskId) {
      var d := SetTask(db, taskId, db.tasks[taskId].(status := Processed));
      OneTaskStep(db, d, taskId);
      FinalizeTxidTasks(d, db.tasks[taskId].timelockTxid, None);
    }
  }

  lemma TaskEventTasks(build: ScriptBuilder, db: Db, e: Event)
    requires IsTaskEvent(e)
    ensures TasksStep(db, Apply(build, db, e))
  {
    if e.TaskInit? || e.TaskReceived? || e.TaskReverted? || e.TaskCreated? {
      TaskQueryTasks(build, db, e);
    } else {
      TaskByIdTasks(build, db, e);
    }
  }

  lemma TaskByIdTasks(build: ScriptBuilder, db: Db, e: Event)
    requires e.TaskCancelled? || e.TaskCompleted? || e.TaskProcessed? || e.TaskInitOk? || e.TaskReceivedOk?
    ensures TasksStep(db, Apply(build, db, e))
  {
    match e {
      case TaskCancelled(id) => CancelTaskStep(build, db, id);
      case TaskCompleted(id) => CompleteTaskStep(build, db, id);
      case TaskProcessed(id) => TaskProcessedTasks(build, db, id);
      case TaskInitOk(id, txid, out) => TaskInitOkTasks(build, db, id, txid, out);
      case TaskReceivedOk(id, txid, out) => ReceivedOkTaskStep(build, db, id, txid, out);
    }
  }

  lemma TaskQueryTasks(build: ScriptBuilder, db: Db, e: Event)
    requires e.TaskInit? || e.TaskReceived? || e.TaskReverted? || e.TaskCreated?
    ensures TasksStep(db, Apply(build, db, e))
  {
    match e {
      case TaskCreated(t) => CreateTaskStep(build, db, t);
      case TaskInit(address, txid, out) => InitTaskStep(build, db, address, txid, out);
      case TaskReceived(txid, addr, out, amount, now) => ReceivedTaskStep(build, db, txid, addr, out, amount, now);
      case TaskReverted(txid) => RevertTaskStep(build, db, txid);
    }
  }

  // ---------- All steps but two ----------

  lemma OrderEventTasks(build: ScriptBuilder, db: Db, e: Event)
    requires !IsTaskEvent(e) && !IsCoinEvent(e) && !IsWithdrawEvent(e) && !e.OrderPending? && !e.OrderConfirmed?
    ensures TasksStep(db, Apply(build, db, e))
  {
    TasksStay(db);
    match e {
      case OrderCreated(n, p) => CreateTasks(db, n, p);
      case OrderRecovered(o, vins, vouts, ids) => RecoverTasks(db, o, vins, vouts, ids);
      case OrderInitialized(txid, ext) => InitlizedTasks(db, txid, ext);
      case WithdrawInitialized(txid, pid) => InitializeTasks(db, |db.orderIds|, txid, true, pid);
      case WithdrawFinalized(txid, pid) => FinalizeTxidTasks(db, txid, Some(pid));
      case CleanedById(id) => CleanTasks(db, ClosedBy(db, e));
      case Cleaned => CleanTasks(db, ClosedBy(db, e));
    }
  }

  lemma RecoverTasks(db: Db, o: Order, vins: seq<Vin>, vouts: seq<Vout>, ids: seq<nat>)
    ensures TasksStep(db, After(db, RecoverSendOrder(db, o, vins, vouts, ids)))
  {
  }

  lemma InitlizedTasks(db: Db, txid: string, ext: string)
    ensures TasksStep(db, UpdateSendOrderInitlized(db, txid, ext))
  {
  }

  lemma CleanTasks(db: Db, id: Option<string>)
    requires id.Some? ==> id.value in db.orders
    ensures id.Some? ==> TasksStep(db, CloseOrder(db, id.value))
  {
    if id.Some? {
      CloseTasks(db, id.value);
    }
  }

  lemma TaskExclusivityStep(build: ScriptBuilder, db: Db, e: Event)
    requires !e.OrderPending? && !e.OrderConfirmed?
    ensures TasksStep(db, Apply(build, db, e))
  {
    if IsTaskEvent(e) {
      TaskEventTasks(build, db, e);
    } else if IsCoinEvent(e) {
      CoinEventFrame(build, db, e);
    } else if IsWithdrawEvent(e) {
      WithdrawEventFrame(build, db, e);
    } else {
      OrderEventTasks(build, db, e);
    }
  }

  // ---------- The two steps that write order statuses into tasks ----------

  // Tasks that confirming a transaction overwrites with the order status.
  ghost predicate Overwritten(db: Db, txid: string, t: Task) {
    match NewestByTxid(db.orders, db.orderIds, txid)
    case Some(id) => !Final(db.orders[id].status) && t.orderId == id
    case None => t.timelockTxid == txid
                 && !(exists w :: w in db.withdraws && db.withdraws[w].txid == txid && db.withdraws[w].status == Processed)
  }

  // The order that a pending message marks, and its status before.
  function MarkedOrder(db: Db, txid: string, rec: Recovery): Option<(string, Status)> {
    match NewestByTxid(db.orders, db.orderIds, txid)
    case Some(id) => Some((id, db.orders[id].status))
    case None => if InsertRecovered(db, txid, rec).Err? then None
                 else Some((rec.order.value.orderId, rec.order.value.status))
  }

  // The tasks that a step overwrites with the unfinished status of an order.
  ghost function Hits(db: Db, e: Event): set<nat> {
    match e
    case OrderConfirmed(txid, block) =>
      if UpdateSendOrderConfirmed(db, txid, block).Err? then {}
      else set t | t in db.tasks && Overwritten(db, txid, db.tasks[t])
    case OrderPending(txid, _, rec) =>
      var marked := MarkedOrder(db, txid, rec);
      if marked.None? || Final(marked.value.1) then {}
      else set t | t in db.tasks && db.tasks[t].orderId == marked.value.0
    case _ => {}
  }

  // What a step does to the tasks, given those it hits.
  ghost predicate HitsTasks(db: Db, db': Db, hits: set<nat>) {
    && db'.taskIds == db.taskIds && db'.tasks.Keys == db.tasks.Keys && hits <= db.tasks.Keys
    && forall t :: t in db.tasks ==>
         && db'.tasks[t].depositAddress == db.tasks[t].depositAddress
         && (t in hits ==> !Finished(db'.tasks[t].status))
         && (t !in hits && Finished(db.tasks[t].status) ==> Finished(db'.tasks[t].status))
         && (t !in hits && hits != {} ==> db'.tasks[t].status == db.tasks[t].status)
  }

  // No finished task is hit.
  ghost predicate Gentle(db: Db, hits: set<nat>) {
    forall t :: t in hits && t in db.tasks ==> !Finished(db.tasks[t].status)
  }

  // No finished task is hit whose address has another task that is unfinished or hit as well.
  ghost predicate Unrivalled(db: Db, hits: set<nat>) {
    forall a, b :: a in hits && a in db.tasks && b in db.tasks && a != b && Finished(db.tasks[a].status)
      && db.tasks[a].depositAddress == db.tasks[b].depositAddress
      ==> Finished(db.tasks[b].status) && b !in hits
  }

  lemma HitsKeepIff(db: Db, db': Db, hits: set<nat>)
    requires HitsTasks(db, db', hits)
    ensures TasksKept(db.tasks, db'.tasks) <==> Gentle(db, hits)
  {
    if TasksKept(db.tasks, db'.tasks) {
      forall t | t in hits && t in db.tasks ensures !Finished(db.tasks[t].status) {
        assert !Finished(db'.tasks[t].status);
      }
    }
  }

  lemma HitsExclusiveIff(db: Db, db': Db, hits: set<nat>)
    requires OneTaskPerAddress(db) && HitsTasks(db, db', hits)
    ensures OneTaskPerAddress(db') <==> Unrivalled(db, hits)
  {
    if OneTaskPerAddress(db') {
      forall a, b | a in hits && a in db.tasks && b in db.tasks && a != b && Finished(db.tasks[a].status)
        && db.tasks[a].depositAddress == db.tasks[b].depositAddress
        ensures Finished(db.tasks[b].status) && b !in hits
      {
        assert !Finished(db'.tasks[a].status) && a in db'.tasks && b in db'.tasks;
      }
    }
    if Unrivalled(db, hits) {
      forall a, b | a in db'.tasks && b in db'.tasks && a != b
        && !Finished(db'.tasks[a].status) && !Finished(db'.tasks[b].status)
        ensures db'.tasks[a].depositAddress != db'.tasks[b].depositAddress
      {
        assert a in db.tasks && b in db.tasks;
      }
    }
  }

  lemma ConfirmOrderHits(db: Db, id: string, block: nat)
    requires id in db.orders && ConfirmOrder(db, id, block).Ok?
    ensures HitsTasks(db, ConfirmOrder(db, id, block).value, set t | t in db.tasks && db.tasks[t].orderId == id)
  {
  }

  lemma ConfirmRowsHit(db: Db, txid: string, done: bool)
    ensures HitsTasks(db, UpdateOtherStatusByTxid(db, txid, if done then Processed else Confirmed),
                      set t | t in db.tasks && db.tasks[t].timelockTxid == txid && !done)
  {
  }

  lemma UnknownHits(db: Db, txid: string, block: nat, done: bool)
    requires !HasOrder(db, txid)
    requires done <==> exists w :: w in db.withdraws && db.withdraws[w].txid == txid && db.withdraws[w].status == Processed
    ensures Hits(db, OrderConfirmed(txid, block)) == set t | t in db.tasks && db.tasks[t].timelockTxid == txid && !done
  {
  }

  lemma ConfirmedHits(db: Db, txid: string, block: nat)
    requires UpdateSendOrderConfirmed(db, txid, block).Ok?
    ensures HitsTasks(db, UpdateSendOrderConfirmed(db, txid, block).value, Hits(db, OrderConfirmed(txid, block)))
  {
    var newest := NewestByTxid(db.orders, db.orderIds, txid);
    if newest.None? {
      var done := exists w | w in db.withdraws :: db.withdraws[w].txid == txid && db.withdraws[w].status == Processed;
      ConfirmRowsHit(db, txid, done);
      UnknownHits(db, txid, block, done);
    } else {
      KnownHits(db, txid, block, newest.value);
    }
  }

  lemma KnownHits(db: Db, txid: string, block: nat, id: string)
    requires UpdateSendOrderConfirmed(db, txid, block).Ok? && NewestByTxid(db.orders, db.orderIds, txid) == Some(id)
    ensures HitsTasks(db, UpdateSendOrderConfirmed(db, txid, block).value, Hits(db, OrderConfirmed(txid, block)))
  {
    var hits := Hits(db, OrderConfirmed(txid, block));
    if Final(db.orders[id].status) {
      assert hits == {};
    } else {
      ConfirmOrderHits(db, id, block);
      assert hits == set t | t in db.tasks && db.tasks[t].orderId == id;
    }
  }

  lemma SetPendingHits(db: Db, id: string, ext: string)
    requires id in db.orders && !Final(db.orders[id].status)
    ensures HitsTasks(db, SetPending(db, id, ext), set t | t in db.tasks && db.tasks[t].orderId == id)
  {
  }

  lemma PendingHits(db: Db, txid: string, ext: string, rec: Recovery)
    requires UpdateSendOrderPending(db, txid, ext, rec).Ok?
    ensures HitsTasks(db, UpdateSendOrderPending(db, txid, ext, rec).value, Hits(db, OrderPending(txid, ext, rec)))
  {
    var newest := NewestByTxid(db.orders, db.orderIds, txid);
    if newest.Some? {
      if !Final(db.orders[newest.value].status) {
        SetPendingHits(db, newest.value, ext);
      }
    } else {
      var d, id := InsertRecovered(db, txid, rec).value, rec.order.value.orderId;
      assert d.tasks == db.tasks && d.taskIds == db.taskIds && d.orders[id] == rec.order.value;
      if !Final(d.orders[id].status) {
        SetPendingHits(d, id, ext);
      }
    }
  }

  // UpdateSendOrderConfirmed keeps finished tasks finished exactly when it overwrites none of them, and keeps one
  // unfinished task per address exactly when it overwrites none that has a rival.
  lemma ConfirmKeepsTasksIff(db: Db, txid: string, block: nat)
    requires UpdateSendOrderConfirmed(db, txid, block).Ok?
    ensures var db', hits := UpdateSendOrderConfirmed(db, txid, block).value, Hits(db, OrderConfirmed(txid, block));
            && (TasksKept(db.tasks, db'.tasks) <==> Gentle(db, hits))
            && (OneTaskPerAddress(db) ==> (OneTaskPerAddress(db') <==> Unrivalled(db, hits)))
  {
    var db', hits := UpdateSendOrderConfirmed(db, txid, block).value, Hits(db, OrderConfirmed(txid, block));
    ConfirmedHits(db, txid, block);
    HitsKeepIff(db, db', hits);
    if OneTaskPerAddress(db) {
      HitsExclusiveIff(db, db', hits);
    }
  }

  // The same for UpdateSendOrderPending, whether it finds the order or rebuilds it.
  lemma PendingKeepsTasksIff(db: Db, txid: string, ext: string, rec: Recovery)
    requires UpdateSendOrderPending(db, txid, ext, rec).Ok?
    ensures var db', hits := UpdateSendOrderPending(db, txid, ext, rec).value, Hits(db, OrderPending(txid, ext, rec));
            && (TasksKept(db.tasks, db'.tasks) <==> Gentle(db, hits))
            && (OneTaskPerAddress(db) ==> (OneTaskPerAddress(db') <==> Unrivalled(db, hits)))
  {
    var db', hits := UpdateSendOrderPending(db, txid, ext, rec).value, Hits(db, OrderPending(txid, ext, rec));
    PendingHits(db, txid, ext, rec);
    HitsKeepIff(db, db', hits);
    if OneTaskPerAddress(db) {
      HitsExclusiveIff(db, db', hits);
    }
  }

  lemma ConfirmStepTasks(build: ScriptBuilder, db: Db, e: Event)
    requires e.OrderConfirmed? && Gentle(db, Hits(db, e))
    ensures TasksStep(db, Apply(build, db, e))
  {
    if UpdateSendOrderConfirmed(db, e.txid, e.btcBlock).Ok? {
      ConfirmKeepsTasksIff(db, e.txid, e.btcBlock);
    }
  }

  lemma PendingStepTasks(build: ScriptBuilder, db: Db, e: Event)
    requires e.OrderPending? && Gentle(db, Hits(db, e))
    ensures TasksStep(db, Apply(build, db, e))
  {
    if UpdateSendOrderPending(db, e.txid, e.externalTxId, e.rec).Ok? {
      PendingKeepsTasksIff(db, e.txid, e.externalTxId, e.rec);
    }
  }

  ghost predicate IsGentle(db: Db, e: Event) {
    Gentle(db, Hits(db, e))
  }

  lemma GentleStep(build: ScriptBuilder, db: Db, e: Event)
    requires Gentle(db, Hits(db, e))
    ensures TasksStep(db, Apply(build, db, e))
  {
    if e.OrderConfirmed? {
      ConfirmStepTasks(build, db, e);
    } else if e.OrderPending? {
      PendingStepTasks(build, db, e);
    } else {
      TaskExclusivityStep(build, db, e);
    }
  }

  // Over every run that hits no finished task, each address has at most one unfinished task and no finished task
  // becomes unfinished.
  lemma {:induction false} TaskExclusivity(build: ScriptBuilder, db: Db, es: seq<Event>)
    requires OneTaskPerAddress(db) && EachStep(IsGentle, build, db, es)
    ensures OneTaskPerAddress(Run(build, db, es)) && TasksKept(db.tasks, Run(build, db, es).tasks)
    decreases |es|
  {
    if es != [] {
      GentleStep(build, db, es[0]);
      TaskExclusivity(build, Apply(build, db, es[0]), es[1..]);
    }
  }

  lemma ExclusiveStepIff(build: ScriptBuilder, db: Db, e: Event)
    requires OneTaskPerAddress(db)
    ensures OneTaskPerAddress(Apply(build, db, e)) <==> Unrivalled(db, Hits(db, e))
  {
    if e.OrderConfirmed? {
      if UpdateSendOrderConfirmed(db, e.txid, e.btcBlock).Ok? {
        ConfirmKeepsTasksIff(db, e.txid, e.btcBlock);
      }
    } else if e.OrderPending? {
      if UpdateSendOrderPending(db, e.txid, e.externalTxId, e.rec).Ok? {
        PendingKeepsTasksIff(db, e.txid, e.externalTxId, e.rec);
      }
    } else {
      TaskExclusivityStep(build, db, e);
    }
  }

  // The step revives no task beside a rival.
  ghost predicate RevivesNone(db: Db, e: Event) {
    Unrivalled(db, Hits(db, e))
  }

  // Over every run, no address ever has two unfinished tasks exactly when no step revives a task beside a rival.
  lemma ExclusiveRunsIff(build: ScriptBuilder, es: seq<Event>)
    ensures Always(OneTaskPerAddress, build, EMPTY_DB, es) <==> EachStep(RevivesNone, build, EMPTY_DB, es)
  {
    forall db, e | OneTaskPerAddress(db) ensures OneTaskPerAddress(Apply(build, db, e)) <==> RevivesNone(db, e) {
      ExclusiveStepIff(build, db, e);
    }
    AlwaysIff(OneTaskPerAddress, RevivesNone, build, EMPTY_DB, es);
  }

  // ---------- A run after which an address has two unfinished tasks ----------

  function TaskAt(taskId: nat): Task {
    Task(taskId, "deposit", "timelock", 100, 1, "", 0, "", 0, Create, "")
  }

  function SafeboxOrder(): NewOrder {
    NewOrder(Order("first", "tx1", Safebox, Aggregating, 0, 0, ""), [Coin(0).outPoint], [], [1],
             [Vin("first", Coin(0).outPoint, P2WPKH, Aggregating)],
             [Vout("first", "tx1", 0, None, 100, "timelock", Aggregating)])
  }

  // The address has one task, and nothing else was ordered.
  ghost predicate OneTask(db: Db, status: Status) {
    && db.taskIds == [1] && db.tasks.Keys == {1}
    && db.tasks[1].depositAddress == "deposit" && db.tasks[1].status == status
  }

  ghost predicate Ordered(db: Db) {
    && db.orderIds == ["first"] && HasOrderIn(db, "first", "tx1", Aggregating)
    && VinsOf(db.vins, "first") <= db.utxos.Keys && 1 in db.tasks && db.tasks[1].orderId == "first"
  }

  function TaskFunding(): seq<Event> {
    [TaskCreated(TaskAt(1)), TaskReceivedOk(1, "funding", 0)]
  }

  function Revival(): seq<Event> {
    [CoinEvent(0)] + TaskFunding() + [OrderCreated(SafeboxOrder(), true)] + [TaskCancelled(1)] + [TaskCreated(TaskAt(2))]
  }

  lemma TaskFunded(build: ScriptBuilder, db: Db)
    requires db.taskIds == [] && db.tasks == map[]
    ensures var db' := Run(build, db, TaskFunding());
            OneTask(db', ReceivedOk) && db' == db.(tasks := db'.tasks, taskIds := db'.taskIds)
  {
    RunOfTwo(build, db, TaskFunding()[0], TaskFunding()[1]);
  }

  lemma OrderTaken(build: ScriptBuilder, db: Db)
    requires OneTask(db, ReceivedOk) && Free(db, 0) && db.orderIds == [] && db.orders == map[] && db.vins == []
    ensures var db' := Apply(build, db, OrderCreated(SafeboxOrder(), true)); OneTask(db', Init) && Ordered(db')
  {
    var n := SafeboxOrder();
    assert CoinsFree(db.utxos, n.coins) && TasksTakeable(db.tasks, n.taskIds, true);
  }

  lemma TaskClosed(build: ScriptBuilder, db: Db)
    requires OneTask(db, Init) && Ordered(db)
    ensures var db' := Apply(build, db, TaskCancelled(1)); OneTask(db', Closed) && Ordered(db')
  {
  }

  lemma TaskReplaced(build: ScriptBuilder, db: Db)
    requires OneTask(db, Closed) && Ordered(db)
    ensures TwoTasks(Apply(build, db, TaskCreated(TaskAt(2))))
  {
    SecondTask(db);
    assert Try(build, db, TaskCreated(TaskAt(2))) == CreateSafeboxTask(db, TaskAt(2));
  }

  lemma SecondTask(db: Db)
    requires OneTask(db, Closed) && Ordered(db)
    ensures CreateSafeboxTask(db, TaskAt(2)).Ok? && TwoTasks(CreateSafeboxTask(db, TaskAt(2)).value)
  {
    assert FirstTask(db.tasks, db.taskIds, ProcessingByAddress("deposit")).None?;
  }

  // A closed task with an order, and a new task at its address.
  ghost predicate TwoTasks(db: Db) {
    && Ordered(db) && db.tasks.Keys == {1, 2} && OneTaskPerAddress(db)
    && db.tasks[1].status == Closed && db.tasks[2].status == Create
    && db.tasks[1].depositAddress == db.tasks[2].depositAddress
  }

  lemma OldTaskRevived(db: Db)
    requires TwoTasks(db)
    ensures var r := UpdateSendOrderConfirmed(db, "tx1", 5); r.Ok? && !OneTaskPerAddress(r.value)
  {
    var hits := Hits(db, OrderConfirmed("tx1", 5));
    OldTaskHit(db);
    ConfirmedHits(db, "tx1", 5);
    HitsExclusiveIff(db, UpdateSendOrderConfirmed(db, "tx1", 5).value, hits);
    RivalHit(db, hits);
  }

  lemma OldTaskHit(db: Db)
    requires Ordered(db)
    ensures UpdateSendOrderConfirmed(db, "tx1", 5).Ok? && 1 in Hits(db, OrderConfirmed("tx1", 5))
  {
    assert NewestByTxid(db.orders, db.orderIds, "tx1") == Some("first");
    assert ConfirmOrder(db, "first", 5).Ok?;
  }

  lemma RivalHit(db: Db, hits: set<nat>)
    requires 1 in hits && db.tasks.Keys == {1, 2} && db.tasks[1].depositAddress == db.tasks[2].depositAddress
    requires db.tasks[1].status == Closed && db.tasks[2].status == Create
    ensures !Unrivalled(db, hits)
  {
    assert !Finished(db.tasks[2].status);
  }

  lemma ConfirmStepBreaks(build: ScriptBuilder, db: Db, txid: string, block: nat)
    requires var r := UpdateSendOrderConfirmed(db, txid, block); r.Ok? && !OneTaskPerAddress(r.value)
    ensures !OneTaskPerAddress(Apply(build, db, OrderConfirmed(txid, block)))
  {
  }

  // A task is ordered, cancelled and replaced by a new one; confirming the order revives it beside the new one.
  lemma ConfirmRevivesCancelled(build: ScriptBuilder)
    ensures var db := Run(build, EMPTY_DB, Revival());
            OneTaskPerAddress(db) && !OneTaskPerAddress(Apply(build, db, OrderConfirmed("tx1", 5)))
  {
    var db := Run(build, EMPTY_DB, Revival());
    RevivalFacts(build);
    OldTaskRevived(db);
    ConfirmStepBreaks(build, db, "tx1", 5);
  }

  lemma RevivalFacts(build: ScriptBuilder)
    ensures TwoTasks(Run(build, EMPTY_DB, Revival()))
  {
    var funded := Run(build, EMPTY_DB, [CoinEvent(0)] + TaskFunding());
    FundedFacts(build);
    OrderTaken(build, funded);
    RunSnoc(build, EMPTY_DB, [CoinEvent(0)] + TaskFunding(), OrderCreated(SafeboxOrder(), true));
    LastTwo(build, [CoinEvent(0)] + TaskFunding() + [OrderCreated(SafeboxOrder(), true)]);
  }

  lemma FundedFacts(build: ScriptBuilder)
    ensures var db := Run(build, EMPTY_DB, [CoinEvent(0)] + TaskFunding());
            OneTask(db, ReceivedOk) && Free(db, 0) && db.orderIds == [] && db.orders == map[] && db.vins == []
  {
    var db := Apply(build, EMPTY_DB, CoinEvent(0));
    FindCoin(build, EMPTY_DB, 0);
    TaskFunded(build, db);
    assert ([CoinEvent(0)] + TaskFunding())[1..] == TaskFunding();
  }

  lemma LastTwo(build: ScriptBuilder, es: seq<Event>)
    requires OneTask(Run(build, EMPTY_DB, es), Init) && Ordered(Run(build, EMPTY_DB, es))
    ensures TwoTasks(Run(build, EMPTY_DB, es + [TaskCancelled(1)] + [TaskCreated(TaskAt(2))]))
  {
    RunSnoc(build, EMPTY_DB, es, TaskCancelled(1));
    RunSnoc(build, EMPTY_DB, es + [TaskCancelled(1)], TaskCreated(TaskAt(2)));
    TaskClosed(build, Run(build, EMPTY_DB, es));
    TaskReplaced(build, Apply(build, Run(build, EMPTY_DB, es), TaskCancelled(1)));
  }
}
