// Runs of the wallet database: any sequence of the relayer's steps.
module WalletRuns {
  import opened Common
  import opened Models
  import opened WalletRows
  import opened OrderSteps
  import opened CoinSteps
  import opened TaskSteps

  datatype Event =
    // withdraw.go
    | WithdrawCreated(w: Withdraw)
    | WithdrawReplaced(id: nat, txPrice: nat)
    | WithdrawCanceling(id: nat)
    | WithdrawClosed(id: nat, reason: string)
    | OrderCreated(n: NewOrder, isProposer: bool)
    | OrderRecovered(order: Order, vins: seq<Vin>, vouts: seq<Vout>, withdrawIds: seq<nat>)
    | OrderInitialized(txid: string, externalTxId: string)
    | OrderPending(txid: string, externalTxId: string, rec: Recovery)
    | OrderConfirmed(txid: string, btcBlock: nat)
    | WithdrawInitialized(txid: string, pid: nat)
    | WithdrawFinalized(txid: string, pid: nat)
    | CleanedById(orderId: string)
    | Cleaned
    // wallet.go
    | CoinSetProcessed(op: OutPoint)
    | CoinSetSpent(op: OutPoint, btcBlock: nat)
    | CoinsSpent(vins: seq<Vin>, btcBlock: nat)
    | CoinFound(found: Found)
    | CoinScripted(op: OutPoint, evmAddr: string)
    | DepositSeen(op: OutPoint, address: string, amount: nat, blockHash: string)
    // deposit.go and safebox.go
    | TaskCreated(t: Task)
    | TaskCancelled(taskId: nat)
    | TaskCompleted(taskId: nat)
    | TaskProcessed(taskId: nat)
    | TaskInitOk(taskId: nat, timelockTxid: string, timelockOutIndex: nat)
    | TaskInit(timelockAddress: string, timelockTxid: string, timelockOutIndex: nat)
    | TaskReceivedOk(taskId: nat, fundingTxid: string, txOut: nat)
    | TaskReceived(txid: string, evmAddr: string, txOut: nat, amount: nat, now: int)
    | TaskReverted(timelockTxid: string)

  // Steps of deposit.go and safebox.go.
  predicate IsTaskEvent(e: Event) {
    || e.TaskCreated? || e.TaskCancelled? || e.TaskCompleted? || e.TaskProcessed? || e.TaskInitOk?
    || e.TaskInit? || e.TaskReceivedOk? || e.TaskReceived? || e.TaskReverted?
  }

  // Steps of wallet.go.
  predicate IsCoinEvent(e: Event) {
    || e.CoinSetProcessed? || e.CoinSetSpent? || e.CoinsSpent? || e.CoinFound? || e.CoinScripted? || e.DepositSeen?
  }

  // Steps on single withdrawals.
  predicate IsWithdrawEvent(e: Event) {
    e.WithdrawCreated? || e.WithdrawReplaced? || e.WithdrawCanceling? || e.WithdrawClosed?
  }

  function TryTask(db: Db, e: Event): Step
    requires IsTaskEvent(e)
  {
    match e
    case TaskCreated(t) => CreateSafeboxTask(db, t)
    case TaskCancelled(id) => Ok(UpdateSafeboxTaskCancelled(db, id))
    case TaskCompleted(id) => UpdateSafeboxTaskCompleted(db, id)
    case TaskProcessed(id) => UpdateSafeboxTaskProcessed(db, id)
    case TaskInitOk(id, txid, out) => UpdateSafeboxTaskInitOK(db, id, txid, out)
    case TaskInit(address, txid, out) => UpdateSafeboxTaskInit(db, address, txid, out)
    case TaskReceivedOk(id, txid, out) => UpdateSafeboxTaskReceivedOK(db, id, txid, out)
    case TaskReceived(txid, addr, out, amount, now) => Ok(UpdateSafeboxTaskReceived(db, txid, addr, out, amount, now))
    case TaskReverted(txid) => RevertSafeboxTask(db, txid)
  }

  function TryCoin(build: ScriptBuilder, db: Db, e: Event): Step
    requires IsCoinEvent(e)
  {
    match e
    case CoinSetProcessed(op) => UpdateUtxoStatusProcessed(db, op)
    case CoinSetSpent(op, block) => UpdateUtxoStatusSpent(db, op, block)
    case CoinsSpent(vins, block) => Ok(UpdateUtxoStatusSpentByVins(db, vins, block))
    case CoinFound(f) => AddUtxo(db, f, build)
    case CoinScripted(op, addr) => UpdateUtxoSubScript(db, op, addr, build)
    case DepositSeen(op, address, amount, hash) => Ok(AddDepositResult(db, op, address, amount, hash))
  }

  function TryWithdraw(db: Db, e: Event): Step
    requires IsWithdrawEvent(e)
  {
    match e
    case WithdrawCreated(w) => Ok(CreateWithdrawal(db, w))
    case WithdrawReplaced(id, txPrice) => UpdateWithdrawReplace(db, id, txPrice)
    case WithdrawCanceling(id) => UpdateWithdrawCanceling(db, id)
    case WithdrawClosed(id, reason) => Ok(CloseWithdraw(db, id, reason))
  }

  function TryOrder(db: Db, e: Event): Step
    requires !IsTaskEvent(e) && !IsCoinEvent(e) && !IsWithdrawEvent(e)
  {
    match e
    case OrderCreated(n, isProposer) => CreateSendOrder(db, n, isProposer)
    case OrderRecovered(o, vins, vouts, ids) => RecoverSendOrder(db, o, vins, vouts, ids)
    case OrderInitialized(txid, ext) => Ok(UpdateSendOrderInitlized(db, txid, ext))
    case OrderPending(txid, ext, rec) => UpdateSendOrderPending(db, txid, ext, rec)
    case OrderConfirmed(txid, block) => UpdateSendOrderConfirmed(db, txid, block)
    case WithdrawInitialized(txid, pid) => UpdateWithdrawInitialized(db, txid, pid)
    case WithdrawFinalized(txid, pid) => UpdateWithdrawFinalized(db, txid, pid)
    case CleanedById(id) => Ok(CleanProcessingWithdrawByOrderId(db, id))
    case Cleaned => Ok(CleanProcessingWithdraw(db))
  }

  function Try(build: ScriptBuilder, db: Db, e: Event): Step {
    if IsTaskEvent(e) then TryTask(db, e)
    else if IsCoinEvent(e) then TryCoin(build, db, e)
    else if IsWithdrawEvent(e) then TryWithdraw(db, e)
    else TryOrder(db, e)
  }

  // A failed step is rolled back.
  function After(db: Db, r: Step): Db {
    if r.Ok? then r.value else db
  }

  function Apply(build: ScriptBuilder, db: Db, e: Event): Db {
    After(db, Try(build, db, e))
  }

  function Run(build: ScriptBuilder, db: Db, es: seq<Event>): Db
    decreases |es|
  {
    if es == [] then db else Run(build, Apply(build, db, es[0]), es[1..])
  }

  lemma {:induction false} RunSnoc(build: ScriptBuilder, db: Db, es: seq<Event>, e: Event)
    ensures Run(build, db, es + [e]) == Apply(build, Run(build, db, es), e)
    decreases |es|
  {
    if es == [] {
      assert [e][1..] == [] && es + [e] == [e];
    } else {
      assert (es + [e])[1..] == es[1..] + [e];
      RunSnoc(build, Apply(build, db, es[0]), es[1..], e);
    }
  }

  lemma RunTail(build: ScriptBuilder, db: Db, es: seq<Event>, k: nat)
    requires es != [] && k < |es|
    ensures Run(build, db, es[..k + 1]) == Run(build, Apply(build, db, es[0]), es[1..][..k])
  {
    assert es[..k + 1][1..] == es[1..][..k];
  }

  // Every state on the way satisfies a property.
  ghost predicate Always(inv: Db -> bool, build: ScriptBuilder, db: Db, es: seq<Event>) {
    forall k :: 0 <= k <= |es| ==> inv(Run(build, db, es[..k]))
  }

  // Every step satisfies a condition on the state before it.
  ghost predicate EachStep(ok: (Db, Event) -> bool, build: ScriptBuilder, db: Db, es: seq<Event>)
    decreases |es|
  {
    es == [] || (ok(db, es[0]) && EachStep(ok, build, Apply(build, db, es[0]), es[1..]))
  }

  lemma AlwaysTail(inv: Db -> bool, build: ScriptBuilder, db: Db, es: seq<Event>)
    requires es != [] && inv(db)
    ensures Always(inv, build, db, es) <==> Always(inv, build, Apply(build, db, es[0]), es[1..])
  {
    var db', rest := Apply(build, db, es[0]), es[1..];
    if Always(inv, build, db, es) {
      forall k | 0 <= k <= |rest| ensures inv(Run(build, db', rest[..k])) {
        RunTail(build, db, es, k);
      }
    }
    if Always(inv, build, db', rest) {
      forall k | 0 <= k <= |es| ensures inv(Run(build, db, es[..k])) {
        if k > 0 {
          RunTail(build, db, es, k - 1);
        }
      }
    }
  }

  // When a condition decides for each single step whether it keeps a property, it decides so for whole runs.
  lemma {:induction false} AlwaysIff(inv: Db -> bool, ok: (Db, Event) -> bool, build: ScriptBuilder, db: Db, es: seq<Event>)
    requires forall d, e :: inv(d) ==> (inv(Apply(build, d, e)) <==> ok(d, e))
    requires inv(db)
    ensures Always(inv, build, db, es) <==> EachStep(ok, build, db, es)
    decreases |es|
  {
    if es == [] {
      assert forall k :: 0 <= k <= |es| ==> es[..k] == [];
    } else {
      var db', rest := Apply(build, db, es[0]), es[1..];
      AlwaysTail(inv, build, db, es);
      if inv(db') {
        AlwaysIff(inv, ok, build, db', rest);
      } else {
        assert rest[..0] == [] && Run(build, db', []) == db';
      }
    }
  }

  // Steps that keep a property keep it over whole runs.
  lemma {:induction false} AlwaysKept(inv: Db -> bool, ok: (Db, Event) -> bool, build: ScriptBuilder, db: Db, es: seq<Event>)
    requires forall d, e :: inv(d) && ok(d, e) ==> inv(Apply(build, d, e))
    requires inv(db) && EachStep(ok, build, db, es)
    ensures Always(inv, build, db, es)
    decreases |es|
  {
    if es == [] {
      assert forall k :: 0 <= k <= |es| ==> es[..k] == [];
    } else {
      AlwaysTail(inv, build, db, es);
      AlwaysKept(inv, ok, build, Apply(build, db, es[0]), es[1..]);
    }
  }

  // The order that a cleaning step closes.
  function ClosedBy(db: Db, e: Event): Option<string> {
    match e
    case CleanedById(id) => if id in db.orders && db.orders[id].status == Aggregating then Some(id) else None
    case Cleaned => FirstInStatus(db.orders, db.orderIds, Aggregating)
    case _ => None
  }

  // ---------- What steps on single rows leave alone ----------

  lemma CoinEventFrame(build: ScriptBuilder, db: Db, e: Event)
    requires IsCoinEvent(e)
    ensures var db' := Apply(build, db, e);
            db' == db.(utxos := db'.utxos, deposits := db'.deposits)
  {
    match e {
      case CoinFound(f) => AddUtxoFrame(build, db, f);
      case CoinScripted(op, addr) => SubScriptFrame(build, db, op, addr);
      case CoinSetProcessed(op) =>
      case CoinSetSpent(op, block) =>
      case CoinsSpent(vins, block) =>
      case DepositSeen(op, address, amount, hash) =>
    }
  }

  lemma AddUtxoFrame(build: ScriptBuilder, db: Db, f: Found)
    ensures var r := AddUtxo(db, f, build); r.Ok? ==> r.value == db.(utxos := r.value.utxos)
  {
  }

  lemma SubScriptFrame(build: ScriptBuilder, db: Db, op: OutPoint, evmAddr: string)
    ensures var r := UpdateUtxoSubScript(db, op, evmAddr, build);
            r.Ok? ==> r.value == db.(utxos := r.value.utxos, deposits := r.value.deposits)
  {
  }

  lemma WithdrawEventFrame(build: ScriptBuilder, db: Db, e: Event)
    requires IsWithdrawEvent(e)
    ensures var db' := Apply(build, db, e); db' == db.(withdraws := db'.withdraws)
  {
  }

  // Task steps that do not look at orders.
  predicate IsPlainTaskEvent(e: Event) {
    IsTaskEvent(e) && !e.TaskProcessed? && !e.TaskInitOk?
  }

  lemma TaskEventFrame(build: ScriptBuilder, db: Db, e: Event)
    requires IsPlainTaskEvent(e)
    ensures var db' := Apply(build, db, e); db' == db.(tasks := db'.tasks, taskIds := db'.taskIds)
  {
  }
}
