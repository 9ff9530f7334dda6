// What each step on orders does to every row of every table, field by field.
module OrderLaws {
  import opened Common
  import opened Models
  import opened WalletRows
  import opened OrderSteps

  // ---------- Saying how tables change ----------

  // The same rows, each as given by its row before.
  ghost predicate Rows<K(!new), R>(before: map<K, R>, after: map<K, R>, f: (K, R) -> R) {
    after.Keys == before.Keys && forall k :: k in before ==> after[k] == f(k, before[k])
  }

  ghost predicate Entries<R>(before: seq<R>, after: seq<R>, f: R -> R) {
    |after| == |before| && forall i :: 0 <= i < |before| ==> after[i] == f(before[i])
  }

  // An order's inputs spend an output.
  ghost predicate SpentBy(db: Db, orderId: string, op: OutPoint) {
    exists i :: 0 <= i < |db.vins| && db.vins[i].orderId == orderId && db.vins[i].prev == op
  }

  // All outputs that an order spends are in the table.
  ghost predicate InputsKnown(db: Db, orderId: string) {
    forall i :: 0 <= i < |db.vins| && db.vins[i].orderId == orderId ==> db.vins[i].prev in db.utxos
  }

  // The inputs and outputs of an order take a status.
  ghost predicate PartsBecome(db: Db, db': Db, orderId: string, status: Status) {
    && Entries(db.vins, db'.vins, (v: Vin) => if v.orderId == orderId then v.(status := status) else v)
    && Entries(db.vouts, db'.vouts, (v: Vout) => if v.orderId == orderId then v.(status := status) else v)
  }

  // The withdrawals and tasks of an order take a status.
  ghost predicate PayeesBecome(db: Db, db': Db, orderId: string, status: Status) {
    && Rows(db.withdraws, db'.withdraws, (k: nat, w: Withdraw) => if w.orderId == orderId then w.(status := status) else w)
    && Rows(db.tasks, db'.tasks, (k: nat, t: Task) => if t.orderId == orderId then t.(status := status) else t)
  }

  lemma InputsOf(db: Db, orderId: string)
    ensures forall op :: op in VinsOf(db.vins, orderId) <==> SpentBy(db, orderId, op)
    ensures VinsOf(db.vins, orderId) <= db.utxos.Keys <==> InputsKnown(db, orderId)
  {
  }

  // ---------- The newest order of a transaction ----------

  ghost predicate Carries(db: Db, j: nat, txid: string)
    requires j < |db.orderIds|
  {
    db.orderIds[j] in db.orders && db.orders[db.orderIds[j]].txid == txid
  }

  // The order at a place of the list is the last one listed for a transaction.
  ghost predicate IsNewest(db: Db, txid: string, k: nat) {
    && k < |db.orderIds| && Carries(db, k, txid)
    && forall j :: k < j < |db.orderIds| ==> !Carries(db, j, txid)
  }

  ghost predicate HasNone(db: Db, txid: string) {
    forall j :: 0 <= j < |db.orderIds| ==> !Carries(db, j, txid)
  }

  lemma {:induction false} NewestOfPrefix(db: Db, n: nat, txid: string, k: nat)
    requires k < n <= |db.orderIds| && Carries(db, k, txid)
    requires forall j :: k < j < n ==> !Carries(db, j, txid)
    ensures NewestByTxid(db.orders, db.orderIds[..n], txid) == Some(db.orderIds[k])
    decreases n
  {
    var ids := db.orderIds[..n];
    assert ids[|ids| - 1] == db.orderIds[n - 1] && ids[..n - 1] == db.orderIds[..n - 1];
    if k < n - 1 {
      assert !Carries(db, n - 1, txid);
      NewestOfPrefix(db, n - 1, txid, k);
    }
  }

  lemma NewestIs(db: Db, txid: string, k: nat)
    requires IsNewest(db, txid, k)
    ensures NewestByTxid(db.orders, db.orderIds, txid) == Some(db.orderIds[k])
  {
    assert db.orderIds[..|db.orderIds|] == db.orderIds;
    NewestOfPrefix(db, |db.orderIds|, txid, k);
  }

  lemma NoNewest(db: Db, txid: string)
    requires HasNone(db, txid)
    ensures NewestByTxid(db.orders, db.orderIds, txid) == None
  {
    var r := NewestByTxid(db.orders, db.orderIds, txid);
    if r.Some? {
      var j :| 0 <= j < |db.orderIds| && db.orderIds[j] == r.value;
      assert Carries(db, j, txid);
    }
  }

  // ---------- Confirming ----------

  // No order or task is listed, and no deposit changes.
  ghost predicate OthersStay(db: Db, db': Db) {
    db'.orderIds == db.orderIds && db'.taskIds == db.taskIds && db'.deposits == db.deposits
  }

  // A confirmed order records its block.  Its coins that were not spent are spent in that block, those that were stay as
  // they are; its withdrawals, tasks, inputs and outputs are confirmed; all other rows stay.  It fails exactly when one of
  // its coins is unknown, and a final order is left alone.
  lemma ConfirmLaw(db: Db, txid: string, block: nat, k: nat)
    requires IsNewest(db, txid, k)
    ensures var id := db.orderIds[k];
            var r := UpdateSendOrderConfirmed(db, txid, block);
            if db.orders[id].status in {Confirmed, Processed, Closed} then r == Ok(db)
            else if !InputsKnown(db, id) then r == Err(NotFound)
            else
              && r.Ok? && OthersStay(db, r.value)
              && r.value.orders == db.orders[id := db.orders[id].(status := Confirmed, btcBlock := block)]
              && PartsBecome(db, r.value, id, Confirmed) && PayeesBecome(db, r.value, id, Confirmed)
              && Rows(db.utxos, r.value.utxos, (op: OutPoint, u: Utxo) =>
                   if SpentBy(db, id, op) && u.status != CoinSpent then u.(status := CoinSpent, spentBlock := block) else u)
  {
    NewestIs(db, txid, k);
    InputsOf(db, db.orderIds[k]);
  }

  // Without an order, the rows of the transaction id are processed if one of its withdrawals is, and confirmed otherwise.
  lemma ConfirmWithoutOrder(db: Db, txid: string, block: nat)
    requires HasNone(db, txid)
    ensures var r := UpdateSendOrderConfirmed(db, txid, block);
            var s := if exists id :: id in db.withdraws && db.withdraws[id].txid == txid && db.withdraws[id].status == Processed
                     then Processed else Confirmed;
            r.Ok? && BecomeByTxid(db, r.value, txid, s) && r.value.orders == db.orders && r.value.utxos == db.utxos
  {
    NoNewest(db, txid);
  }

  // The withdrawals, tasks and outputs of a transaction take a status, and so do the inputs that spend one of its outputs.
  ghost predicate BecomeByTxid(db: Db, db': Db, txid: string, s: Status) {
    && OthersStay(db, db')
    && Rows(db.withdraws, db'.withdraws, (k: nat, w: Withdraw) => if w.txid == txid then w.(status := s) else w)
    && Rows(db.tasks, db'.tasks, (k: nat, t: Task) => if t.timelockTxid == txid then t.(status := s) else t)
    && Entries(db.vins, db'.vins, (v: Vin) => if v.prev.txid == txid then v.(status := s) else v)
    && Entries(db.vouts, db'.vouts, (v: Vout) => if v.txid == txid then v.(status := s) else v)
  }

  // ---------- Initialising and pending ----------

  // The newest order becomes init with its inputs and outputs, unless it is final; nothing else changes.
  lemma InitlizedLaw(db: Db, txid: string, ext: string, k: nat)
    requires IsNewest(db, txid, k)
    ensures var id := db.orderIds[k];
            var db' := UpdateSendOrderInitlized(db, txid, ext);
            if db.orders[id].status in {Confirmed, Processed, Closed} then db' == db
            else
              && OthersStay(db, db') && db'.utxos == db.utxos && db'.withdraws == db.withdraws && db'.tasks == db.tasks
              && db'.orders == db.orders[id := db.orders[id].(status := Init, externalTxId := ext)]
              && PartsBecome(db, db', id, Init)
  {
    NewestIs(db, txid, k);
  }

  // The newest order becomes pending with its rows, unless it is final; coins stay.
  lemma PendingLaw(db: Db, txid: string, ext: string, rec: Recovery, k: nat)
    requires IsNewest(db, txid, k)
    ensures var id := db.orderIds[k];
            var r := UpdateSendOrderPending(db, txid, ext, rec);
            if db.orders[id].status in {Confirmed, Processed, Closed} then r == Ok(db)
            else
              && r.Ok? && OthersStay(db, r.value) && r.value.utxos == db.utxos
              && r.value.orders == db.orders[id := db.orders[id].(status := Pending, externalTxId := ext)]
              && PartsBecome(db, r.value, id, Pending) && PayeesBecome(db, r.value, id, Pending)
  {
    NewestIs(db, txid, k);
  }

  // Listed coins are all different, known and confirmed or processed.
  ghost predicate AllSpendable(utxos: map<OutPoint, Utxo>, coins: seq<OutPoint>) {
    && (forall i, j :: 0 <= i < j < |coins| ==> coins[i] != coins[j])
    && forall i :: 0 <= i < |coins| ==> coins[i] in utxos && utxos[coins[i]].status in {CoinConfirmed, CoinProcessed}
  }

  // An unknown order is rebuilt exactly from complete arguments, under a fresh id, on spendable coins and for withdrawals
  // that wait or aggregate.
  lemma RebuildIff(db: Db, txid: string, ext: string, rec: Recovery)
    requires HasNone(db, txid)
    ensures UpdateSendOrderPending(db, txid, ext, rec).Ok?
            <==> && rec.order.Some? && rec.coins != [] && rec.vins != [] && rec.vouts != []
                 && rec.order.value.orderId !in db.orders && AllSpendable(db.utxos, rec.coins)
                 && (forall i, j :: 0 <= i < j < |rec.withdrawIds| ==> rec.withdrawIds[i] != rec.withdrawIds[j])
                 && forall i :: 0 <= i < |rec.withdrawIds| ==>
                      rec.withdrawIds[i] in db.withdraws && db.withdraws[rec.withdrawIds[i]].status in {Create, Aggregating}
  {
    NoNewest(db, txid);
  }

  // The rebuilt order is pending unless it comes with a final status, and exactly the coins it names become pending.
  lemma RebuildLaw(db: Db, txid: string, ext: string, rec: Recovery)
    requires HasNone(db, txid) && UpdateSendOrderPending(db, txid, ext, rec).Ok?
    ensures rec.order.Some?
    ensures var db' := UpdateSendOrderPending(db, txid, ext, rec).value;
            var o := rec.order.value;
            && db'.orderIds == db.orderIds + [o.orderId] && db'.taskIds == db.taskIds && db'.deposits == db.deposits
            && db'.orders == db.orders[o.orderId := if o.status in {Confirmed, Processed, Closed} then o
                                                    else o.(status := Pending, externalTxId := ext)]
            && Rows(db.utxos, db'.utxos, (op: OutPoint, u: Utxo) => if op in rec.coins then u.(status := CoinPending) else u)
  {
    NoNewest(db, txid);
    RebuiltCoins(db, txid, rec);
  }

  lemma MarkedInputs(db: Db, id: string, ext: string)
    requires id in db.orders
    ensures SameVins(db.vins, SetPending(db, id, ext).vins)
  {
  }

  lemma MarkedOutputs(db: Db, id: string, ext: string)
    requires id in db.orders
    ensures Entries(db.vouts, SetPending(db, id, ext).vouts, (v: Vout) =>
              if v.orderId == id && db.orders[id].status !in {Confirmed, Processed, Closed} then v.(status := Pending) else v)
  {
  }

  // A list is extended by given outpoints under one order id.
  lemma ExtendedInputs(vins: seq<Vin>, added: seq<Vin>, orderId: string, after: seq<Vin>)
    requires SameVins(vins + OwnedVins(added, orderId), after)
    ensures |after| == |vins| + |added|
    ensures forall i :: 0 <= i < |added| ==> after[|vins| + i].orderId == orderId && after[|vins| + i].prev == added[i].prev
  {
    assert forall i :: 0 <= i < |added| ==> (vins + OwnedVins(added, orderId))[|vins| + i] == OwnedVins(added, orderId)[i];
  }

  // Its inputs and outputs are added under its id.
  lemma RebuildInputs(db: Db, txid: string, ext: string, rec: Recovery)
    requires HasNone(db, txid) && UpdateSendOrderPending(db, txid, ext, rec).Ok? && rec.order.Some?
    ensures var db' := UpdateSendOrderPending(db, txid, ext, rec).value;
            var o := rec.order.value;
            && |db'.vins| == |db.vins| + |rec.vins|
            && forall i :: 0 <= i < |rec.vins| ==>
                 db'.vins[|db.vins| + i].orderId == o.orderId && db'.vins[|db.vins| + i].prev == rec.vins[i].prev
  {
    NoNewest(db, txid);
    var d, id := InsertRecovered(db, txid, rec).value, rec.order.value.orderId;
    MarkedInputs(d, id, ext);
    ExtendedInputs(db.vins, rec.vins, id, SetPending(d, id, ext).vins);
  }

  lemma RebuildOutputs(db: Db, txid: string, ext: string, rec: Recovery)
    requires HasNone(db, txid) && UpdateSendOrderPending(db, txid, ext, rec).Ok? && rec.order.Some?
    ensures var db' := UpdateSendOrderPending(db, txid, ext, rec).value;
            var o := rec.order.value;
            && |db'.vouts| == |db.vouts| + |rec.vouts|
            && forall i :: 0 <= i < |rec.vouts| ==>
                 db'.vouts[|db.vouts| + i] == rec.vouts[i].(orderId := o.orderId, status := db'.vouts[|db.vouts| + i].status)
  {
    NoNewest(db, txid);
    MarkedOutputs(InsertRecovered(db, txid, rec).value, rec.order.value.orderId, ext);
  }

  // Its withdrawals carry its id and the transaction.
  lemma RebuildWithdraws(db: Db, txid: string, ext: string, rec: Recovery)
    requires HasNone(db, txid) && UpdateSendOrderPending(db, txid, ext, rec).Ok? && rec.order.Some?
    ensures var db' := UpdateSendOrderPending(db, txid, ext, rec).value;
            var o := rec.order.value;
            forall id :: id in db.withdraws && id in rec.withdrawIds ==>
              && id in db'.withdraws && db'.withdraws[id].orderId == o.orderId && db'.withdraws[id].txid == txid
              && db'.withdraws[id].status == (if o.status in {Confirmed, Processed, Closed} then Init else Pending)
  {
    NoNewest(db, txid);
  }

  lemma RebuiltCoins(db: Db, txid: string, rec: Recovery)
    requires InsertRecovered(db, txid, rec).Ok?
    ensures Rows(db.utxos, InsertRecovered(db, txid, rec).value.utxos,
                 (op: OutPoint, u: Utxo) => if op in rec.coins then u.(status := CoinPending) else u)
  {
    assert CoinsFree(db.utxos, rec.coins);
  }

  // ---------- Saving an order ----------

  // A proposer may take each row that is free once; a voter also rows that are taken, and repeatedly.
  ghost predicate MayTake(statusOf: nat -> Option<Status>, ids: seq<nat>, free: Status, taken: Status, isProposer: bool) {
    && (isProposer ==> forall i, j :: 0 <= i < j < |ids| ==> ids[i] != ids[j])
    && forall i :: 0 <= i < |ids| ==>
         statusOf(ids[i]) == Some(free) || (!isProposer && statusOf(ids[i]) == Some(taken))
  }

  function WithdrawStatus(db: Db): nat -> Option<Status> {
    (id: nat) => if id in db.withdraws then Some(db.withdraws[id].status) else None
  }

  function TaskStatus(db: Db): nat -> Option<Status> {
    (id: nat) => if id in db.tasks then Some(db.tasks[id].status) else None
  }

  // An order is saved exactly under a fresh id, with inputs and outputs, on spendable coins, and for tasks or withdrawals
  // that may be taken.
  lemma CreateIff(db: Db, n: NewOrder, isProposer: bool)
    ensures CreateSendOrder(db, n, isProposer).Ok?
            <==> && n.order.orderId !in db.orders && n.vins != [] && n.vouts != [] && AllSpendable(db.utxos, n.coins)
                 && (n.order.orderType == Safebox ==> MayTake(TaskStatus(db), n.taskIds, ReceivedOk, Init, isProposer))
                 && (n.order.orderType == Withdrawal ==> MayTake(WithdrawStatus(db), n.withdrawIds, Create, Aggregating, isProposer))
  {
    var coins := CoinsError(db.utxos, n.coins);
    assert AllSpendable(db.utxos, n.coins) <==> CoinsFree(db.utxos, n.coins);
    assert MayTake(TaskStatus(db), n.taskIds, ReceivedOk, Init, isProposer) <==> TasksTakeable(db.tasks, n.taskIds, isProposer);
    assert MayTake(WithdrawStatus(db), n.withdrawIds, Create, Aggregating, isProposer)
           <==> WithdrawsTakeable(db.withdraws, n.withdrawIds, isProposer);
  }

  // The saved order is listed last with its inputs and outputs; exactly its coins become pending; its withdrawals
  // aggregate, or its tasks are initialised, under its id and transaction.
  lemma CreateLaw(db: Db, n: NewOrder, isProposer: bool)
    requires CreateSendOrder(db, n, isProposer).Ok?
    ensures var db', o := CreateSendOrder(db, n, isProposer).value, n.order;
            && db'.orders == db.orders[o.orderId := o] && db'.orderIds == db.orderIds + [o.orderId]
            && db'.vins == db.vins + n.vins && db'.vouts == db.vouts + n.vouts
            && db'.taskIds == db.taskIds && db'.deposits == db.deposits
            && Rows(db.utxos, db'.utxos, (op: OutPoint, u: Utxo) => if op in n.coins then u.(status := CoinPending) else u)
            && Rows(db.withdraws, db'.withdraws, (id: nat, w: Withdraw) =>
                 if o.orderType == Withdrawal && id in n.withdrawIds
                 then w.(status := Aggregating, orderId := o.orderId, txid := o.txid) else w)
            && Rows(db.tasks, db'.tasks, (id: nat, t: Task) =>
                 if o.orderType == Safebox && id in n.taskIds
                 then t.(status := Init, orderId := o.orderId, timelockTxid := o.txid) else t)
  {
    assert CoinsFree(db.utxos, n.coins);
  }

  // ---------- Recovering an order ----------

  // A recovered order is added unless an open one has its transaction, exactly under a fresh id with inputs and outputs.
  // The coins of its inputs become pending unless they are held, its waiting withdrawals are initialised.
  lemma RecoverLaw(db: Db, o: Order, vins: seq<Vin>, vouts: seq<Vout>, ids: seq<nat>)
    ensures var r := RecoverSendOrder(db, o, vins, vouts, ids);
            if exists id :: id in db.orders && db.orders[id].txid == o.txid && db.orders[id].status in {Init, Aggregating}
            then r == Ok(db)
            else if o.orderId in db.orders || vins == [] || vouts == [] then r.Err?
            else
              && r.Ok? && r.value.orders == db.orders[o.orderId := o] && r.value.orderIds == db.orderIds + [o.orderId]
              && r.value.tasks == db.tasks && r.value.taskIds == db.taskIds && r.value.deposits == db.deposits
              && r.value.vouts == db.vouts + vouts
              && Rows(db.withdraws, r.value.withdraws, (id: nat, w: Withdraw) =>
                   if id in ids && w.status in {Create, Aggregating}
                   then w.(status := Init, orderId := o.orderId, txid := o.txid) else w)
              && Rows(db.utxos, r.value.utxos, (op: OutPoint, u: Utxo) =>
                   if u.status !in {CoinPending, CoinSpent} && exists i :: 0 <= i < |vins| && vins[i].prev == op
                   then u.(status := CoinPending) else u)
  {
  }

  // The inputs of a recovered order are added as they come, except that the first input of a coin that becomes pending
  // takes the coin's receiver type.
  lemma {:induction false} RecoveredInputs(utxos: map<OutPoint, Utxo>, vins: seq<Vin>, i: nat)
    requires i < |vins|
    ensures var v, v' := vins[i], RecoverVins(utxos, vins)[i];
            v' == if v.prev in utxos && utxos[v.prev].status !in {CoinPending, CoinSpent}
                     && forall j :: 0 <= j < i ==> vins[j].prev != v.prev
                  then v.(receiverType := utxos[v.prev].receiverType) else v
    decreases |vins|
  {
    var front := vins[..|vins| - 1];
    if i < |front| {
      RecoveredInputs(utxos, front, i);
    } else {
      assert forall j :: 0 <= j < |front| ==> front[j] == vins[j];
    }
  }

  // ---------- Reopening and finalising ----------

  // One order of UpdateWithdrawInitialized: an aggregating or closed order becomes init if newest, closed otherwise, with
  // the process id.  Its withdrawals that wait, aggregate or are closed become init; the newest one's coins become pending
  // unless they are held.  It fails exactly when one of these coins is unknown.
  lemma InitializePass(db: Db, id: string, newest: bool, pid: nat)
    requires id in db.orders
    ensures var r, o := InitializeOrder(db, id, newest, pid), db.orders[id];
            var s := if newest then Init else Closed;
            if o.status !in {Aggregating, Closed} then r == Ok(db)
            else if newest && !InputsKnown(db, id) then r == Err(NotFound)
            else
              && r.Ok? && OthersStay(db, r.value) && r.value.tasks == db.tasks
              && r.value.orders == db.orders[id := o.(status := s, pid := pid)] && PartsBecome(db, r.value, id, s)
  {
    InputsOf(db, id);
  }

  lemma InitializePassWithdraws(db: Db, id: string, newest: bool, pid: nat)
    requires id in db.orders && db.orders[id].status in {Aggregating, Closed} && InitializeOrder(db, id, newest, pid).Ok?
    ensures Rows(db.withdraws, InitializeOrder(db, id, newest, pid).value.withdraws, (k: nat, w: Withdraw) =>
              if w.orderId == id && w.status in {Create, Aggregating, Closed} then w.(status := Init) else w)
  {
  }

  lemma InitializePassCoins(db: Db, id: string, newest: bool, pid: nat)
    requires id in db.orders && db.orders[id].status in {Aggregating, Closed} && InitializeOrder(db, id, newest, pid).Ok?
    ensures Rows(db.utxos, InitializeOrder(db, id, newest, pid).value.utxos, (op: OutPoint, u: Utxo) =>
              if newest && SpentBy(db, id, op) && u.status !in {CoinPending, CoinSpent} then u.(status := CoinPending) else u)
  {
    InputsOf(db, id);
  }

  // One pass changes one order.
  lemma InitializeOne(db: Db, id: string, newest: bool, pid: nat)
    requires id in db.orders && InitializeOrder(db, id, newest, pid).Ok?
    ensures var db', o := InitializeOrder(db, id, newest, pid).value, db.orders[id];
            && db'.orderIds == db.orderIds
            && db'.orders == if o.status in {Aggregating, Closed}
                             then db.orders[id := o.(status := if newest then Init else Closed, pid := pid)] else db.orders
  {
  }

  lemma InitializeCarries(db: Db, id: string, newest: bool, pid: nat, txid: string)
    requires id in db.orders && InitializeOrder(db, id, newest, pid).Ok?
    ensures var db', o := InitializeOrder(db, id, newest, pid).value, db.orders[id];
            && db'.orderIds == db.orderIds
            && db'.orders == (if o.status in {Aggregating, Closed}
                              then db.orders[id := o.(status := if newest then Init else Closed, pid := pid)] else db.orders)
            && forall i :: 0 <= i < |db.orderIds| ==> Carries(db', i, txid) == Carries(db, i, txid)
  {
    InitializeOne(db, id, newest, pid);
  }

  // The loop touches each order of the transaction once, and takes the last one listed for the newest.
  lemma {:induction false} InitializeLoop(db: Db, k: nat, txid: string, newest: bool, pid: nat, j: nat)
    requires k <= |db.orderIds| && j < |db.orderIds| && db.orderIds[j] in db.orders && Distinct(db.orderIds)
    requires InitializeOrders(db, k, txid, newest, pid).Ok?
    ensures var db' := InitializeOrders(db, k, txid, newest, pid).value;
            var id := db.orderIds[j];
            && id in db'.orders && db'.orderIds == db.orderIds
            && db'.orders[id] == if j < k && Carries(db, j, txid) && db.orders[id].status in {Aggregating, Closed}
                                 then db.orders[id].(pid := pid, status :=
                                        if newest && forall i :: j < i < k ==> !Carries(db, i, txid) then Init else Closed)
                                 else db.orders[id]
    decreases k
  {
    if k > 0 {
      var last := db.orderIds[k - 1];
      if !Carries(db, k - 1, txid) {
        InitializeLoop(db, k - 1, txid, newest, pid, j);
      } else {
        var db1 := InitializeOrder(db, last, newest, pid).value;
        InitializeCarries(db, last, newest, pid, txid);
        InitializeLoop(db1, k - 1, txid, false, pid, j);
      }
    }
  }

  // One order of UpdateWithdrawFinalized: its withdrawals are processed; if it is init, pending or confirmed, so is it with
  // its inputs and outputs, and its coins that were not spent are spent in its block.
  lemma FinalizePass(db: Db, id: string, pid: Option<nat>)
    requires id in db.orders
    ensures var r, o := FinalizeOrder(db, id, pid), db.orders[id];
            if o.status in {Init, Pending, Confirmed} && !InputsKnown(db, id) then r == Err(NotFound)
            else
              && r.Ok? && OthersStay(db, r.value) && r.value.tasks == db.tasks
              && Rows(db.withdraws, r.value.withdraws, (k: nat, w: Withdraw) =>
                   if w.orderId == id then w.(status := Processed) else w)
              && (if o.status in {Init, Pending, Confirmed}
                  then && r.value.orders == db.orders[id := o.(status := Processed, pid := if pid.Some? then pid.value else o.pid)]
                       && PartsBecome(db, r.value, id, Processed)
                       && Rows(db.utxos, r.value.utxos, (op: OutPoint, u: Utxo) =>
                            if SpentBy(db, id, op) && u.status != CoinSpent
                            then u.(status := CoinSpent, spentBlock := o.btcBlock) else u)
                  else && r.value.orders == db.orders && r.value.vins == db.vins && r.value.vouts == db.vouts
                       && r.value.utxos == db.utxos)
  {
    InputsOf(db, id);
  }

  // The loop finalises each order of the transaction.
  lemma {:induction false} FinalizeLoop(db: Db, k: nat, txid: string, pid: Option<nat>, j: nat)
    requires k <= |db.orderIds| && j < |db.orderIds| && db.orderIds[j] in db.orders && Distinct(db.orderIds)
    requires FinalizeOrders(db, k, txid, pid).Ok?
    ensures var db' := FinalizeOrders(db, k, txid, pid).value;
            var id := db.orderIds[j];
            && id in db'.orders && db'.orderIds == db.orderIds
            && db'.orders[id] == if j < k && Carries(db, j, txid) && db.orders[id].status in {Init, Pending, Confirmed}
                                 then db.orders[id].(status := Processed, pid := if pid.Some? then pid.value else db.orders[id].pid)
                                 else db.orders[id]
    decreases k
  {
    if k > 0 {
      var last := db.orderIds[k - 1];
      if !Carries(db, k - 1, txid) {
        FinalizeLoop(db, k - 1, txid, pid, j);
      } else {
        FinalizePass(db, last, pid);
        var db1 := FinalizeOrder(db, last, pid).value;
        FinalizeLoop(db1, k - 1, txid, pid, j);
      }
    }
  }

  // After the loop the rows of the transaction id are processed; without an order nothing happens at all.
  lemma FinalizeLaw(db: Db, txid: string, pid: Option<nat>)
    ensures HasNone(db, txid) ==> FinalizeTxid(db, txid, pid) == Ok(db)
    ensures !HasNone(db, txid) ==>
              var looped, r := FinalizeOrders(db, |db.orderIds|, txid, pid), FinalizeTxid(db, txid, pid);
              if looped.Err? then r == looped
              else && r.Ok? && BecomeByTxid(looped.value, r.value, txid, Processed)
                   && r.value.orders == looped.value.orders && r.value.utxos == looped.value.utxos
  {
    if HasNone(db, txid) {
      NoNewest(db, txid);
    } else {
      var j :| 0 <= j < |db.orderIds| && Carries(db, j, txid);
      var newest := NewestByTxid(db.orders, db.orderIds, txid);
      assert db.orderIds[j] in db.orderIds;
    }
  }

  // ---------- Cleaning ----------

  // A closed order gives everything back: its pending coins are processed again, its aggregating withdrawals wait, its
  // initialised tasks wait for a transaction; its inputs and outputs are closed.
  ghost predicate GivesBack(db: Db, db': Db, id: string)
    requires id in db.orders
  {
    && OthersStay(db, db') && db'.orders == db.orders[id := db.orders[id].(status := Closed)]
    && PartsBecome(db, db', id, Closed)
    && Rows(db.utxos, db'.utxos, (op: OutPoint, u: Utxo) =>
         if SpentBy(db, id, op) && u.status == CoinPending then u.(status := CoinProcessed) else u)
    && Rows(db.withdraws, db'.withdraws, (k: nat, w: Withdraw) =>
         if w.orderId == id && w.status == Aggregating then w.(status := Create) else w)
    && Rows(db.tasks, db'.tasks, (k: nat, t: Task) =>
         if t.orderId == id && t.status == Init then t.(status := ReceivedOk) else t)
  }

  lemma CloseLaw(db: Db, id: string)
    requires id in db.orders
    ensures GivesBack(db, CloseOrder(db, id), id)
  {
    InputsOf(db, id);
    var db' := CloseOrder(db, id);
    assert PartsBecome(db, db', id, Closed) && OthersStay(db, db');
  }

  // The order at a place of the list is the first one that aggregates.
  ghost predicate IsFirstAggregating(db: Db, k: nat) {
    && k < |db.orderIds| && db.orderIds[k] in db.orders && db.orders[db.orderIds[k]].status == Aggregating
    && forall j :: 0 <= j < k && db.orderIds[j] in db.orders ==> db.orders[db.orderIds[j]].status != Aggregating
  }

  lemma {:induction false} FirstOfSuffix(db: Db, n: nat, k: nat)
    requires IsFirstAggregating(db, k) && n <= k
    ensures FirstInStatus(db.orders, db.orderIds[n..], Aggregating) == Some(db.orderIds[k])
    decreases k - n
  {
    assert db.orderIds[n..][0] == db.orderIds[n] && db.orderIds[n..][1..] == db.orderIds[n + 1..];
    if n < k {
      FirstOfSuffix(db, n + 1, k);
    }
  }

  // The clean-up closes the first aggregating order.
  lemma CleanLaw(db: Db, k: nat)
    requires IsFirstAggregating(db, k)
    ensures GivesBack(db, CleanProcessingWithdraw(db), db.orderIds[k])
  {
    assert db.orderIds[0..] == db.orderIds;
    FirstOfSuffix(db, 0, k);
    assert CleanProcessingWithdraw(db) == CloseOrder(db, db.orderIds[k]);
    CloseLaw(db, db.orderIds[k]);
  }

  // When none aggregates, all aggregating withdrawals wait again, and inputs and outputs that wait or aggregate are closed.
  lemma StrayLaw(db: Db)
    requires forall j :: 0 <= j < |db.orderIds| && db.orderIds[j] in db.orders ==> db.orders[db.orderIds[j]].status != Aggregating
    ensures StraysReset(db, CleanProcessingWithdraw(db))
  {
  }

  ghost predicate StraysReset(db: Db, db': Db) {
    && OthersStay(db, db') && db'.orders == db.orders && db'.utxos == db.utxos && db'.tasks == db.tasks
    && Rows(db.withdraws, db'.withdraws, (k: nat, w: Withdraw) => if w.status == Aggregating then w.(status := Create) else w)
    && Entries(db.vins, db'.vins, (v: Vin) => if v.status in {Create, Aggregating} then v.(status := Closed) else v)
    && Entries(db.vouts, db'.vouts, (v: Vout) => if v.status in {Create, Aggregating} then v.(status := Closed) else v)
  }

  // Cleaning by id does so for an aggregating order, and nothing for any other.
  lemma CleanByIdLaw(db: Db, id: string)
    ensures if id in db.orders && db.orders[id].status == Aggregating
            then GivesBack(db, CleanProcessingWithdrawByOrderId(db, id), id)
            else CleanProcessingWithdrawByOrderId(db, id) == db
  {
    if id in db.orders {
      CloseLaw(db, id);
    }
  }

  // ---------- Withdrawals ----------

  // A row of one table changes, if it is there, and nothing else.
  lemma WithdrawLaw(db: Db, w: Withdraw, id: nat, txPrice: nat, reason: string)
    ensures CreateWithdrawal(db, w)
            == if w.requestId in db.withdraws then db
               else db.(withdraws := db.withdraws[w.requestId :=
                 Withdraw(w.requestId, w.amount, w.txPrice, 0, w.to, Create, "", "", "", w.createdAt)])
    ensures id !in db.withdraws ==>
              && UpdateWithdrawReplace(db, id, txPrice) == Err(NotFound) && UpdateWithdrawCanceling(db, id) == Err(NotFound)
              && CloseWithdraw(db, id, reason) == db
    ensures id in db.withdraws ==> var row := db.withdraws[id];
              && CloseWithdraw(db, id, reason) == db.(withdraws := db.withdraws[id := row.(status := Closed, reason := reason)])
              && (if row.status in {Create, Aggregating}
                  then && UpdateWithdrawReplace(db, id, txPrice) == Ok(db.(withdraws := db.withdraws[id := row.(txPrice := txPrice)]))
                       && UpdateWithdrawCanceling(db, id) == Ok(db.(withdraws := db.withdraws[id := row.(status := Canceling)]))
                  else UpdateWithdrawReplace(db, id, txPrice) == Ok(db) && UpdateWithdrawCanceling(db, id) == Ok(db))
  {
  }
}
