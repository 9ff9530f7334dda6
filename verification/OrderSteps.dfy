// The steps of internal/state/withdraw.go as functions on the database: a step either yields the new
// database or an error, in which case the transaction is rolled back.
module OrderSteps {
  import opened Common
  import opened Models
  import opened WalletRows

  type Step = Result<Db, DbError>

  // ---------- Withdrawals ----------

  function CreateWithdrawal(db: Db, w: Withdraw): Db {
    if w.requestId in db.withdraws then db
    else db.(withdraws := db.withdraws[w.requestId :=
               w.(txFee := 0, status := Create, orderId := "", txid := "", reason := "")])
  }

  predicate Replaceable(s: Status) {
    s == Create || s == Aggregating
  }

  function UpdateWithdrawReplace(db: Db, id: nat, txPrice: nat): Step {
    if id !in db.withdraws then Err(NotFound)
    else if !Replaceable(db.withdraws[id].status) then Ok(db)
    else Ok(db.(withdraws := db.withdraws[id := db.withdraws[id].(txPrice := txPrice)]))
  }

  function UpdateWithdrawCanceling(db: Db, id: nat): Step {
    if id !in db.withdraws then Err(NotFound)
    else if !Replaceable(db.withdraws[id].status) then Ok(db)
    else Ok(db.(withdraws := db.withdraws[id := db.withdraws[id].(status := Canceling)]))
  }

  // UpdateWithdrawCanceled and CloseWithdrawByRequestId: an unknown id is ignored.
  function CloseWithdraw(db: Db, id: nat, reason: string): Db {
    if id !in db.withdraws then db
    else db.(withdraws := db.withdraws[id := db.withdraws[id].(status := Closed, reason := reason)])
  }

  // ---------- CreateSendOrder ----------

  datatype NewOrder = NewOrder(
    order: Order, coins: seq<OutPoint>, withdrawIds: seq<nat>, taskIds: seq<nat>, vins: seq<Vin>, vouts: seq<Vout>)

  ghost predicate CoinsFree(utxos: map<OutPoint, Utxo>, coins: seq<OutPoint>) {
    && Distinct(coins)
    && forall i :: 0 <= i < |coins| ==> coins[i] in utxos && Spendable(utxos[coins[i]])
  }

  // Marking the coins one by one fails on the first that is missing, not spendable or already marked.
  function CoinsError(utxos: map<OutPoint, Utxo>, coins: seq<OutPoint>): (r: Option<DbError>)
    ensures r.None? <==> CoinsFree(utxos, coins)
  {
    if coins == [] then None else
    var front, op := coins[..|coins| - 1], coins[|coins| - 1];
    var r := CoinsError(utxos, front);
    assert coins == front + [op];
    if r.Some? then r
    else if op !in utxos then Some(NotFound)
    else if !Spendable(utxos[op]) || op in front then Some(BadStatus)
    else None
  }

  // A proposer takes only fresh withdrawals; a voter may see a withdrawal in several orders.
  predicate Takeable(s: Status, free: Status, taken: Status, isProposer: bool) {
    s == free || (!isProposer && s == taken)
  }

  ghost predicate WithdrawsTakeable(ws: map<nat, Withdraw>, ids: seq<nat>, isProposer: bool) {
    && (isProposer ==> Distinct(ids))
    && forall i :: 0 <= i < |ids| ==> ids[i] in ws && Takeable(ws[ids[i]].status, Create, Aggregating, isProposer)
  }

  ghost predicate TasksTakeable(tasks: map<nat, Task>, ids: seq<nat>, isProposer: bool) {
    && (isProposer ==> Distinct(ids))
    && forall i :: 0 <= i < |ids| ==> ids[i] in tasks && Takeable(tasks[ids[i]].status, ReceivedOk, Init, isProposer)
  }

  function WithdrawsError(ws: map<nat, Withdraw>, ids: seq<nat>, isProposer: bool): (r: Option<DbError>)
    ensures r.None? <==> WithdrawsTakeable(ws, ids, isProposer)
  {
    if ids == [] then None else
    var front, id := ids[..|ids| - 1], ids[|ids| - 1];
    var r := WithdrawsError(ws, front, isProposer);
    assert ids == front + [id];
    if r.Some? then r
    else if id !in ws then Some(NotFound)
    else if !Takeable(ws[id].status, Create, Aggregating, isProposer) || (isProposer && id in front) then Some(BadStatus)
    else None
  }

  function TasksError(tasks: map<nat, Task>, ids: seq<nat>, isProposer: bool): (r: Option<DbError>)
    ensures r.None? <==> TasksTakeable(tasks, ids, isProposer)
  {
    if ids == [] then None else
    var front, id := ids[..|ids| - 1], ids[|ids| - 1];
    var r := TasksError(tasks, front, isProposer);
    assert ids == front + [id];
    if r.Some? then r
    else if id !in tasks then Some(NotFound)
    else if !Takeable(tasks[id].status, ReceivedOk, Init, isProposer) || (isProposer && id in front) then Some(BadStatus)
    else None
  }

  function TakeWithdraws(ws: map<nat, Withdraw>, ids: seq<nat>, o: Order): map<nat, Withdraw> {
    map id | id in ws ::
      if id in ids then ws[id].(status := Aggregating, orderId := o.orderId, txid := o.txid) else ws[id]
  }

  function TakeTasks(tasks: map<nat, Task>, ids: seq<nat>, o: Order): map<nat, Task> {
    map id | id in tasks ::
      if id in ids then tasks[id].(status := Init, orderId := o.orderId, timelockTxid := o.txid) else tasks[id]
  }

  function ToSet<T>(s: seq<T>): set<T> {
    set x | x in s
  }

  function InsertOrder(db: Db, o: Order): Db {
    db.(orders := db.orders[o.orderId := o], orderIds := db.orderIds + [o.orderId])
  }

  function CreateSendOrder(db: Db, n: NewOrder, isProposer: bool): Step {
    if n.order.orderId in db.orders then Err(Duplicate)
    else if n.vins == [] || n.vouts == [] then Err(EmptyInsert)
    else
      var coins := CoinsError(db.utxos, n.coins);
      var tasks := if n.order.orderType == Safebox then TasksError(db.tasks, n.taskIds, isProposer) else None;
      var withdraws := if n.order.orderType == Withdrawal then WithdrawsError(db.withdraws, n.withdrawIds, isProposer) else None;
      if coins.Some? then Err(coins.value)
      else if tasks.Some? then Err(tasks.value)
      else if withdraws.Some? then Err(withdraws.value)
      else
        Ok(InsertOrder(db, n.order).(
          vins := db.vins + n.vins, vouts := db.vouts + n.vouts,
          utxos := HoldCoins(db.utxos, ToSet(n.coins)),
          tasks := if n.order.orderType == Safebox then TakeTasks(db.tasks, n.taskIds, n.order) else db.tasks,
          withdraws := if n.order.orderType == Withdrawal then TakeWithdraws(db.withdraws, n.withdrawIds, n.order)
                       else db.withdraws))
  }

  // ---------- RecoverSendOrder ----------

  function RecoverWithdraws(ws: map<nat, Withdraw>, ids: seq<nat>, o: Order): map<nat, Withdraw> {
    map id | id in ws ::
      if id in ids && Replaceable(ws[id].status) then ws[id].(status := Init, orderId := o.orderId, txid := o.txid)
      else ws[id]
  }

  // The outpoints of a list of inputs.
  function Prevs(vins: seq<Vin>): set<OutPoint> {
    set i | 0 <= i < |vins| :: vins[i].prev
  }

  // A vin that marks its coin takes the coin's receiver type.
  function RecoverVins(utxos: map<OutPoint, Utxo>, vins: seq<Vin>): (r: seq<Vin>)
    ensures SameVins(vins, r)
  {
    if vins == [] then [] else
    var front, v := vins[..|vins| - 1], vins[|vins| - 1];
    RecoverVins(utxos, front) +
    [if v.prev in utxos && !Allocated(utxos[v.prev]) && v.prev !in Prevs(front)
     then v.(receiverType := utxos[v.prev].receiverType) else v]
  }

  predicate HasOpenOrder(db: Db, txid: string) {
    exists id | id in db.orders :: db.orders[id].txid == txid
      && (db.orders[id].status == Init || db.orders[id].status == Aggregating)
  }

  function RecoverSendOrder(db: Db, o: Order, vins: seq<Vin>, vouts: seq<Vout>, withdrawIds: seq<nat>): Step {
    if HasOpenOrder(db, o.txid) then Ok(db)
    else if o.orderId in db.orders then Err(Duplicate)
    else if vins == [] || vouts == [] then Err(EmptyInsert)
    else
      Ok(InsertOrder(db, o).(
        withdraws := RecoverWithdraws(db.withdraws, withdrawIds, o),
        utxos := HoldCoins(db.utxos, Prevs(vins)),
        vins := db.vins + RecoverVins(db.utxos, vins), vouts := db.vouts + vouts))
  }

  // ---------- Order progress ----------

  function UpdateSendOrderInitlized(db: Db, txid: string, externalTxId: string): Db {
    match NewestByTxid(db.orders, db.orderIds, txid)
    case None => db
    case Some(id) =>
      if Final(db.orders[id].status) then db else
      UpdateOtherStatusByOrder(
        db.(orders := db.orders[id := db.orders[id].(status := Init, externalTxId := externalTxId)]), id, Init, true)
  }

  // What a pending message carries for an order that is not in the table.
  datatype Recovery = Recovery(
    order: Option<Order>, coins: seq<OutPoint>, vins: seq<Vin>, vouts: seq<Vout>, withdrawIds: seq<nat>)

  function OwnedVins(vins: seq<Vin>, orderId: string): (r: seq<Vin>)
    ensures |r| == |vins| && forall i :: 0 <= i < |r| ==> r[i].orderId == orderId && r[i].prev == vins[i].prev
  {
    seq(|vins|, i requires 0 <= i < |vins| => vins[i].(orderId := orderId))
  }

  function OwnedVouts(vouts: seq<Vout>, orderId: string): seq<Vout> {
    seq(|vouts|, i requires 0 <= i < |vouts| => vouts[i].(orderId := orderId))
  }

  // An unknown request id is not noticed before its row is used.
  function PendingWithdrawsError(ws: map<nat, Withdraw>, ids: seq<nat>): (r: Option<DbError>)
    ensures r.None? <==> Distinct(ids) && forall i :: 0 <= i < |ids| ==> ids[i] in ws && Replaceable(ws[ids[i]].status)
  {
    if ids == [] then None else
    var front, id := ids[..|ids| - 1], ids[|ids| - 1];
    var r := PendingWithdrawsError(ws, front);
    assert ids == front + [id];
    if r.Some? then r
    else if id !in ws then Some(NilRow)
    else if !Replaceable(ws[id].status) || id in front then Some(BadStatus)
    else None
  }

  function InsertRecovered(db: Db, txid: string, rec: Recovery): Step {
    if rec.order.None? || rec.coins == [] || rec.vins == [] || rec.vouts == [] then Err(MissingArguments)
    else
      var o := rec.order.value;
      var coins := CoinsError(db.utxos, rec.coins);
      var withdraws := PendingWithdrawsError(db.withdraws, rec.withdrawIds);
      if o.orderId in db.orders then Err(Duplicate)
      else if coins.Some? then Err(coins.value)
      else if withdraws.Some? then Err(withdraws.value)
      else
        Ok(InsertOrder(db, o).(
          utxos := HoldCoins(db.utxos, ToSet(rec.coins)),
          vins := db.vins + OwnedVins(rec.vins, o.orderId), vouts := db.vouts + OwnedVouts(rec.vouts, o.orderId),
          withdraws := RecoverWithdraws(db.withdraws, rec.withdrawIds, o.(txid := txid))))
  }

  function SetPending(db: Db, id: string, externalTxId: string): Db
    requires id in db.orders
  {
    if Final(db.orders[id].status) then db else
    UpdateOtherStatusByOrder(
      db.(orders := db.orders[id := db.orders[id].(status := Pending, externalTxId := externalTxId)]), id, Pending, false)
  }

  // A rebuilt order is marked pending at once unless it comes with a final status.
  function PendingOrder(o: Order, ext: string): Order {
    if Final(o.status) then o else o.(status := Pending, externalTxId := ext)
  }

  function UpdateSendOrderPending(db: Db, txid: string, externalTxId: string, rec: Recovery): Step {
    match NewestByTxid(db.orders, db.orderIds, txid)
    case Some(id) => Ok(SetPending(db, id, externalTxId))
    case None =>
      var inserted := InsertRecovered(db, txid, rec);
      if inserted.Err? then inserted
      else Ok(SetPending(inserted.value, rec.order.value.orderId, externalTxId))
  }

  function ConfirmOrder(db: Db, id: string, btcBlock: nat): Step
    requires id in db.orders
  {
    var d := UpdateOtherStatusByOrder(
               db.(orders := db.orders[id := db.orders[id].(status := Confirmed, btcBlock := btcBlock)]), id, Confirmed, false);
    var ops := VinsOf(db.vins, id);
    if ops <= db.utxos.Keys then Ok(d.(utxos := SpendCoins(db.utxos, ops, btcBlock))) else Err(NotFound)
  }

  function UpdateSendOrderConfirmed(db: Db, txid: string, btcBlock: nat): Step {
    match NewestByTxid(db.orders, db.orderIds, txid)
    case Some(id) => if Final(db.orders[id].status) then Ok(db) else ConfirmOrder(db, id, btcBlock)
    case None =>
      var done := exists w | w in db.withdraws :: db.withdraws[w].txid == txid && db.withdraws[w].status == Processed;
      Ok(UpdateOtherStatusByTxid(db, txid, if done then Processed else Confirmed))
  }

  // ---------- Steps over all orders of a transaction, newest first ----------

  // One order of UpdateWithdrawInitialized: the newest is (re)opened, older open or closed ones are closed.
  function InitializeOrder(db: Db, id: string, newest: bool, pid: nat): Step
    requires id in db.orders
  {
    var o := db.orders[id];
    if o.status != Aggregating && o.status != Closed then Ok(db) else
    var status := if newest then Init else Closed;
    var d := UpdateOtherStatusByOrder(db.(orders := db.orders[id := o.(status := status, pid := pid)]), id, status, true);
    var d' := d.(withdraws := WithdrawsByOrder(d.withdraws, id, {Create, Aggregating, Closed}, Init));
    var ops := VinsOf(db.vins, id);
    if !newest then Ok(d')
    else if ops <= db.utxos.Keys then Ok(d'.(utxos := HoldCoins(db.utxos, ops))) else Err(NotFound)
  }

  function InitializeOrders(db: Db, k: nat, txid: string, newest: bool, pid: nat): Step
    requires k <= |db.orderIds|
    decreases k
  {
    if k == 0 then Ok(db) else
    var id := db.orderIds[k - 1];
    if id !in db.orders || db.orders[id].txid != txid then InitializeOrders(db, k - 1, txid, newest, pid) else
    var r := InitializeOrder(db, id, newest, pid);
    if r.Err? then r else InitializeOrders(r.value, k - 1, txid, false, pid)
  }

  function UpdateWithdrawInitialized(db: Db, txid: string, pid: nat): Step {
    InitializeOrders(db, |db.orderIds|, txid, true, pid)
  }

  // One order of UpdateWithdrawFinalized (which sets a pid) and UpdateSafeboxTaskProcessed (which does not).
  function FinalizeOrder(db: Db, id: string, pid: Option<nat>): Step
    requires id in db.orders
  {
    var o := db.orders[id];
    var d := db.(withdraws := WithdrawsByOrder(db.withdraws, id, {}, Processed));
    if o.status != Init && o.status != Pending && o.status != Confirmed then Ok(d) else
    var o' := o.(status := Processed, pid := if pid.Some? then pid.value else o.pid);
    var d' := UpdateOtherStatusByOrder(d.(orders := d.orders[id := o']), id, Processed, true);
    var ops := VinsOf(db.vins, id);
    if ops <= db.utxos.Keys then Ok(d'.(utxos := SpendCoins(db.utxos, ops, o.btcBlock))) else Err(NotFound)
  }

  function FinalizeOrders(db: Db, k: nat, txid: string, pid: Option<nat>): Step
    requires k <= |db.orderIds|
    decreases k
  {
    if k == 0 then Ok(db) else
    var id := db.orderIds[k - 1];
    if id !in db.orders || db.orders[id].txid != txid then FinalizeOrders(db, k - 1, txid, pid) else
    var r := FinalizeOrder(db, id, pid);
    if r.Err? then r else FinalizeOrders(r.value, k - 1, txid, pid)
  }

  predicate HasOrder(db: Db, txid: string) {
    NewestByTxid(db.orders, db.orderIds, txid).Some?
  }

  function FinalizeTxid(db: Db, txid: string, pid: Option<nat>): Step {
    if !HasOrder(db, txid) then Ok(db) else
    var r := FinalizeOrders(db, |db.orderIds|, txid, pid);
    if r.Err? then r else Ok(UpdateOtherStatusByTxid(r.value, txid, Processed))
  }

  function UpdateWithdrawFinalized(db: Db, txid: string, pid: nat): Step {
    FinalizeTxid(db, txid, Some(pid))
  }

  // ---------- Cleaning ----------

  // Closes an aggregating order and takes back everything it reserved.
  function CloseOrder(db: Db, id: string): Db
    requires id in db.orders
  {
    var d := UpdateOtherStatusByOrder(db.(orders := db.orders[id := db.orders[id].(status := Closed)]), id, Closed, true);
    d.(utxos := ReleaseCoins(db.utxos, VinsOf(db.vins, id)),
       withdraws := WithdrawsByOrder(d.withdraws, id, {Aggregating}, Create),
       tasks := TasksByOrder(d.tasks, id, {Init}, ReceivedOk))
  }

  function CleanProcessingWithdrawByOrderId(db: Db, id: string): Db {
    if id !in db.orders || db.orders[id].status != Aggregating then db else CloseOrder(db, id)
  }

  // Only the first aggregating order is closed; without one, stray rows are reset.
  function CleanProcessingWithdraw(db: Db): Db {
    match FirstInStatus(db.orders, db.orderIds, Aggregating)
    case Some(id) => CloseOrder(db, id)
    case None =>
      UpdateOtherStatusByStatuses(
        db.(withdraws := WithdrawsByStatuses(db.withdraws, {Aggregating}, Create)), Closed, {Create, Aggregating})
  }
}
