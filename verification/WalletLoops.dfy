// The loops inside the wallet's transactions.  Each works through a list row by row on the transaction's
// tables and gives up at the first row it cannot use; the functions of OrderSteps say what the whole loop
// does.
module WalletLoops {
  import opened Common
  import opened Models
  import opened WalletRows
  import opened OrderSteps

  function Failed(e: Option<DbError>, d: Db): Step {
    if e.Some? then Err(e.value) else Ok(d)
  }

  // ---------- The lists of a new order ----------

  // A list fails as soon as one of its prefixes does.
  lemma {:induction false} CoinsErrorStops(utxos: map<OutPoint, Utxo>, coins: seq<OutPoint>, k: nat)
    requires k <= |coins| && CoinsError(utxos, coins[..k]).Some?
    ensures CoinsError(utxos, coins) == CoinsError(utxos, coins[..k])
    decreases |coins|
  {
    if k == |coins| {
      assert coins[..k] == coins;
    } else {
      var front := coins[..|coins| - 1];
      assert front[..k] == coins[..k];
      CoinsErrorStops(utxos, front, k);
    }
  }

  lemma {:induction false} WithdrawsErrorStops(ws: map<nat, Withdraw>, ids: seq<nat>, isProposer: bool, k: nat)
    requires k <= |ids| && WithdrawsError(ws, ids[..k], isProposer).Some?
    ensures WithdrawsError(ws, ids, isProposer) == WithdrawsError(ws, ids[..k], isProposer)
    decreases |ids|
  {
    if k == |ids| {
      assert ids[..k] == ids;
    } else {
      var front := ids[..|ids| - 1];
      assert front[..k] == ids[..k];
      WithdrawsErrorStops(ws, front, isProposer, k);
    }
  }

  lemma {:induction false} TasksErrorStops(tasks: map<nat, Task>, ids: seq<nat>, isProposer: bool, k: nat)
    requires k <= |ids| && TasksError(tasks, ids[..k], isProposer).Some?
    ensures TasksError(tasks, ids, isProposer) == TasksError(tasks, ids[..k], isProposer)
    decreases |ids|
  {
    if k == |ids| {
      assert ids[..k] == ids;
    } else {
      var front := ids[..|ids| - 1];
      assert front[..k] == ids[..k];
      TasksErrorStops(tasks, front, isProposer, k);
    }
  }

  lemma {:induction false} PendingWithdrawsErrorStops(ws: map<nat, Withdraw>, ids: seq<nat>, k: nat)
    requires k <= |ids| && PendingWithdrawsError(ws, ids[..k]).Some?
    ensures PendingWithdrawsError(ws, ids) == PendingWithdrawsError(ws, ids[..k])
    decreases |ids|
  {
    if k == |ids| {
      assert ids[..k] == ids;
    } else {
      var front := ids[..|ids| - 1];
      assert front[..k] == ids[..k];
      PendingWithdrawsErrorStops(ws, front, k);
    }
  }

  // What the next coin of a list does after those before it were marked.
  lemma HoldNext(utxos: map<OutPoint, Utxo>, coins: seq<OutPoint>, i: nat)
    requires i < |coins| && CoinsError(utxos, coins[..i]).None?
    ensures var held, op := HoldCoins(utxos, ToSet(coins[..i])), coins[i];
            && CoinsError(utxos, coins[..i + 1])
               == (if op !in held then Some(NotFound) else if !Spendable(held[op]) then Some(BadStatus) else None)
            && (op in held && Spendable(held[op]) ==>
                  HoldCoins(utxos, ToSet(coins[..i + 1])) == held[op := held[op].(status := CoinPending)])
  {
    assert coins[..i + 1][..i] == coins[..i];
    assert forall x :: x in coins[..i + 1] <==> x in coins[..i] || x == coins[i];
  }

  method MarkCoins(tx: Db, coins: seq<OutPoint>) returns (r: Step)
    ensures r == Failed(CoinsError(tx.utxos, coins), tx.(utxos := HoldCoins(tx.utxos, ToSet(coins))))
  {
    var utxos := tx.utxos;
    for i := 0 to |coins|
      invariant CoinsError(tx.utxos, coins[..i]).None?
      invariant utxos == HoldCoins(tx.utxos, ToSet(coins[..i]))
    {
      var op := coins[i];
      HoldNext(tx.utxos, coins, i);
      if op !in utxos {
        CoinsErrorStops(tx.utxos, coins, i + 1);
        return Err(NotFound);
      }
      if !Spendable(utxos[op]) {
        CoinsErrorStops(tx.utxos, coins, i + 1);
        return Err(BadStatus);
      }
      utxos := utxos[op := utxos[op].(status := CoinPending)];
    }
    assert coins[..|coins|] == coins;
    r := Ok(tx.(utxos := utxos));
  }

  // What the next task of a list does after those before it were taken.
  lemma TakeTasksNext(tasks: map<nat, Task>, ids: seq<nat>, i: nat, o: Order, isProposer: bool)
    requires i < |ids| && TasksError(tasks, ids[..i], isProposer).None?
    ensures var taken, id := TakeTasks(tasks, ids[..i], o), ids[i];
            && TasksError(tasks, ids[..i + 1], isProposer)
               == (if id !in taken then Some(NotFound)
                   else if taken[id].status != ReceivedOk && (isProposer || taken[id].status != Init) then Some(BadStatus)
                   else None)
            && (id in taken ==>
                  TakeTasks(tasks, ids[..i + 1], o)
                  == taken[id := taken[id].(status := Init, orderId := o.orderId, timelockTxid := o.txid)])
  {
    assert ids[..i + 1][..i] == ids[..i];
    assert forall x :: x in ids[..i + 1] <==> x in ids[..i] || x == ids[i];
  }

  method MarkTasks(tx: Db, ids: seq<nat>, o: Order, isProposer: bool) returns (r: Step)
    ensures r == Failed(TasksError(tx.tasks, ids, isProposer), tx.(tasks := TakeTasks(tx.tasks, ids, o)))
  {
    var tasks := tx.tasks;
    for i := 0 to |ids|
      invariant TasksError(tx.tasks, ids[..i], isProposer).None?
      invariant tasks == TakeTasks(tx.tasks, ids[..i], o)
    {
      var id := ids[i];
      TakeTasksNext(tx.tasks, ids, i, o, isProposer);
      if id !in tasks {
        TasksErrorStops(tx.tasks, ids, isProposer, i + 1);
        return Err(NotFound);
      }
      // A voter may receive several orders with the same task.
      if tasks[id].status != ReceivedOk && (isProposer || tasks[id].status != Init) {
        TasksErrorStops(tx.tasks, ids, isProposer, i + 1);
        return Err(BadStatus);
      }
      tasks := tasks[id := tasks[id].(status := Init, orderId := o.orderId, timelockTxid := o.txid)];
    }
    assert ids[..|ids|] == ids;
    r := Ok(tx.(tasks := tasks));
  }

  lemma TakeWithdrawsNext(ws: map<nat, Withdraw>, ids: seq<nat>, i: nat, o: Order, isProposer: bool)
    requires i < |ids| && WithdrawsError(ws, ids[..i], isProposer).None?
    ensures var taken, id := TakeWithdraws(ws, ids[..i], o), ids[i];
            && WithdrawsError(ws, ids[..i + 1], isProposer)
               == (if id !in taken then Some(NotFound)
                   else if taken[id].status != Create && (isProposer || taken[id].status != Aggregating) then Some(BadStatus)
                   else None)
            && (id in taken ==>
                  TakeWithdraws(ws, ids[..i + 1], o)
                  == taken[id := taken[id].(status := Aggregating, orderId := o.orderId, txid := o.txid)])
  {
    assert ids[..i + 1][..i] == ids[..i];
    assert forall x :: x in ids[..i + 1] <==> x in ids[..i] || x == ids[i];
  }

  method MarkWithdraws(tx: Db, ids: seq<nat>, o: Order, isProposer: bool) returns (r: Step)
    ensures r == Failed(WithdrawsError(tx.withdraws, ids, isProposer), tx.(withdraws := TakeWithdraws(tx.withdraws, ids, o)))
  {
    var ws := tx.withdraws;
    for i := 0 to |ids|
      invariant WithdrawsError(tx.withdraws, ids[..i], isProposer).None?
      invariant ws == TakeWithdraws(tx.withdraws, ids[..i], o)
    {
      var id := ids[i];
      TakeWithdrawsNext(tx.withdraws, ids, i, o, isProposer);
      if id !in ws {
        WithdrawsErrorStops(tx.withdraws, ids, isProposer, i + 1);
        return Err(NotFound);
      }
      if ws[id].status != Create && (isProposer || ws[id].status != Aggregating) {
        WithdrawsErrorStops(tx.withdraws, ids, isProposer, i + 1);
        return Err(BadStatus);
      }
      ws := ws[id := ws[id].(status := Aggregating, orderId := o.orderId, txid := o.txid)];
    }
    assert ids[..|ids|] == ids;
    r := Ok(tx.(withdraws := ws));
  }

  // ---------- The lists of a recovered order ----------

  method RecoverWithdrawRows(tx: Db, ids: seq<nat>, o: Order) returns (d: Db)
    ensures d == tx.(withdraws := RecoverWithdraws(tx.withdraws, ids, o))
  {
    var ws := tx.withdraws;
    for i := 0 to |ids|
      invariant ws == RecoverWithdraws(tx.withdraws, ids[..i], o)
    {
      var id := ids[i];
      assert forall x :: x in ids[..i + 1] <==> x in ids[..i] || x == id;
      if id in ws && (ws[id].status == Create || ws[id].status == Aggregating) {
        ws := ws[id := ws[id].(status := Init, orderId := o.orderId, txid := o.txid)];
      }
    }
    assert ids[..|ids|] == ids;
    d := tx.(withdraws := ws);
  }

  // What the next input does after those before it marked their coins.
  lemma RecoverNext(utxos: map<OutPoint, Utxo>, vins: seq<Vin>, i: nat)
    requires i < |vins|
    ensures var held, v := HoldCoins(utxos, Prevs(vins[..i])), vins[i];
            var free := v.prev in held && held[v.prev].status != CoinPending && held[v.prev].status != CoinSpent;
            && HoldCoins(utxos, Prevs(vins[..i + 1]))
               == (if free then held[v.prev := held[v.prev].(status := CoinPending)] else held)
            && RecoverVins(utxos, vins[..i + 1])
               == RecoverVins(utxos, vins[..i]) + [if free then v.(receiverType := held[v.prev].receiverType) else v]
  {
    PrevsOfLonger(vins, i);
    assert vins[..i + 1][..i] == vins[..i];
  }

  // Marks the known coins and gives their inputs the coin's receiver type.
  method RecoverCoins(tx: Db, vins: seq<Vin>) returns (d: Db, typed: seq<Vin>)
    ensures d == tx.(utxos := HoldCoins(tx.utxos, Prevs(vins)))
    ensures typed == RecoverVins(tx.utxos, vins)
  {
    var utxos := tx.utxos;
    typed := [];
    for i := 0 to |vins|
      invariant utxos == HoldCoins(tx.utxos, Prevs(vins[..i]))
      invariant typed == RecoverVins(tx.utxos, vins[..i])
    {
      var vin := vins[i];
      RecoverNext(tx.utxos, vins, i);
      if vin.prev in utxos && utxos[vin.prev].status != CoinPending && utxos[vin.prev].status != CoinSpent {
        typed := typed + [vin.(receiverType := utxos[vin.prev].receiverType)];
        utxos := utxos[vin.prev := utxos[vin.prev].(status := CoinPending)];
      } else {
        typed := typed + [vin];
      }
    }
    assert vins[..|vins|] == vins;
    d := tx.(utxos := utxos);
  }

  lemma PrevsOfLonger(vins: seq<Vin>, i: nat)
    requires i < |vins|
    ensures Prevs(vins[..i + 1]) == Prevs(vins[..i]) + {vins[i].prev}
  {
    forall op | op in Prevs(vins[..i]) + {vins[i].prev} ensures op in Prevs(vins[..i + 1]) {
      var j :| 0 <= j <= i && vins[j].prev == op;
      assert vins[..i + 1][j].prev == op;
    }
    forall op | op in Prevs(vins[..i + 1]) ensures op in Prevs(vins[..i]) + {vins[i].prev} {
      var j :| 0 <= j <= i && vins[..i + 1][j].prev == op;
      assert j < i ==> vins[..i][j].prev == op;
    }
  }

  lemma InitWithdrawsNext(ws: map<nat, Withdraw>, ids: seq<nat>, i: nat, o: Order)
    requires i < |ids| && PendingWithdrawsError(ws, ids[..i]).None?
    ensures var taken, id := RecoverWithdraws(ws, ids[..i], o), ids[i];
            && PendingWithdrawsError(ws, ids[..i + 1])
               == (if id !in taken then Some(NilRow)
                   else if taken[id].status != Aggregating && taken[id].status != Create then Some(BadStatus)
                   else None)
            && (id in taken && PendingWithdrawsError(ws, ids[..i + 1]).None? ==>
                  RecoverWithdraws(ws, ids[..i + 1], o)
                  == taken[id := taken[id].(orderId := o.orderId, txid := o.txid, status := Init)])
  {
    assert ids[..i + 1][..i] == ids[..i];
    assert forall x :: x in ids[..i + 1] <==> x in ids[..i] || x == ids[i];
  }

  method InitWithdraws(tx: Db, ids: seq<nat>, o: Order, txid: string) returns (r: Step)
    ensures r == Failed(PendingWithdrawsError(tx.withdraws, ids),
                        tx.(withdraws := RecoverWithdraws(tx.withdraws, ids, o.(txid := txid))))
  {
    var ws := tx.withdraws;
    for i := 0 to |ids|
      invariant PendingWithdrawsError(tx.withdraws, ids[..i]).None?
      invariant ws == RecoverWithdraws(tx.withdraws, ids[..i], o.(txid := txid))
    {
      var id := ids[i];
      InitWithdrawsNext(tx.withdraws, ids, i, o.(txid := txid));
      if id !in ws {
        PendingWithdrawsErrorStops(tx.withdraws, ids, i + 1);
        return Err(NilRow);
      }
      if ws[id].status != Aggregating && ws[id].status != Create {
        PendingWithdrawsErrorStops(tx.withdraws, ids, i + 1);
        return Err(BadStatus);
      }
      ws := ws[id := ws[id].(orderId := o.orderId, txid := txid, status := Init)];
    }
    assert ids[..|ids|] == ids;
    r := Ok(tx.(withdraws := ws));
  }

  // ---------- The coins of an order ----------

  lemma VinsOfLonger(vins: seq<Vin>, i: nat, orderId: string)
    requires i < |vins|
    ensures VinsOf(vins[..i + 1], orderId)
            == VinsOf(vins[..i], orderId) + (if vins[i].orderId == orderId then {vins[i].prev} else {})
  {
    var longer := vins[..i + 1];
    forall op | op in VinsOf(vins[..i], orderId) ensures op in VinsOf(longer, orderId) {
      var j :| 0 <= j < i && vins[..i][j].orderId == orderId && vins[..i][j].prev == op;
      assert longer[j] == vins[..i][j];
    }
    if vins[i].orderId == orderId {
      assert longer[i] == vins[i];
    }
    forall op | op in VinsOf(longer, orderId) && (vins[i].orderId != orderId || op != vins[i].prev)
      ensures op in VinsOf(vins[..i], orderId)
    {
      var j :| 0 <= j <= i && longer[j].orderId == orderId && longer[j].prev == op;
      assert vins[..i][j] == longer[j];
    }
  }

  // A missing coin is an error.
  method SpendVins(tx: Db, orderId: string, btcBlock: nat) returns (r: Step)
    ensures r == if VinsOf(tx.vins, orderId) <= tx.utxos.Keys
                 then Ok(tx.(utxos := SpendCoins(tx.utxos, VinsOf(tx.vins, orderId), btcBlock))) else Err(NotFound)
  {
    var utxos := tx.utxos;
    for i := 0 to |tx.vins|
      invariant VinsOf(tx.vins[..i], orderId) <= tx.utxos.Keys
      invariant utxos == SpendCoins(tx.utxos, VinsOf(tx.vins[..i], orderId), btcBlock)
    {
      VinsOfLonger(tx.vins, i, orderId);
      if tx.vins[i].orderId == orderId {
        var op := tx.vins[i].prev;
        if op !in utxos {
          assert op in VinsOf(tx.vins, orderId);
          return Err(NotFound);
        }
        if utxos[op].status != CoinSpent {
          utxos := utxos[op := utxos[op].(status := CoinSpent, spentBlock := btcBlock)];
        }
      }
    }
    assert tx.vins[..|tx.vins|] == tx.vins;
    r := Ok(tx.(utxos := utxos));
  }

  method HoldVins(tx: Db, orderId: string) returns (r: Step)
    ensures r == if VinsOf(tx.vins, orderId) <= tx.utxos.Keys
                 then Ok(tx.(utxos := HoldCoins(tx.utxos, VinsOf(tx.vins, orderId)))) else Err(NotFound)
  {
    var utxos := tx.utxos;
    for i := 0 to |tx.vins|
      invariant VinsOf(tx.vins[..i], orderId) <= tx.utxos.Keys
      invariant utxos == HoldCoins(tx.utxos, VinsOf(tx.vins[..i], orderId))
    {
      VinsOfLonger(tx.vins, i, orderId);
      if tx.vins[i].orderId == orderId {
        var op := tx.vins[i].prev;
        if op !in utxos {
          assert op in VinsOf(tx.vins, orderId);
          return Err(NotFound);
        }
        if utxos[op].status != CoinSpent && utxos[op].status != CoinPending {
          utxos := utxos[op := utxos[op].(status := CoinPending)];
        }
      }
    }
    assert tx.vins[..|tx.vins|] == tx.vins;
    r := Ok(tx.(utxos := utxos));
  }

  // Missing coins are skipped.
  method ReleaseVins(tx: Db, orderId: string) returns (d: Db)
    ensures d == tx.(utxos := ReleaseCoins(tx.utxos, VinsOf(tx.vins, orderId)))
  {
    var utxos := tx.utxos;
    for i := 0 to |tx.vins|
      invariant utxos == ReleaseCoins(tx.utxos, VinsOf(tx.vins[..i], orderId))
    {
      VinsOfLonger(tx.vins, i, orderId);
      var op := tx.vins[i].prev;
      if tx.vins[i].orderId == orderId && op in utxos && utxos[op].status == CoinPending {
        utxos := utxos[op := utxos[op].(status := CoinProcessed)];
      }
    }
    assert tx.vins[..|tx.vins|] == tx.vins;
    d := tx.(utxos := utxos);
  }

  method SpendListed(tx: Db, vins: seq<Vin>, btcBlock: nat) returns (d: Db)
    ensures d == tx.(utxos := SpendCoins(tx.utxos, Prevs(vins), btcBlock))
  {
    var utxos := tx.utxos;
    for i := 0 to |vins|
      invariant utxos == SpendCoins(tx.utxos, Prevs(vins[..i]), btcBlock)
    {
      PrevsOfLonger(vins, i);
      var op := vins[i].prev;
      if op in utxos && utxos[op].status != CoinSpent {
        utxos := utxos[op := utxos[op].(status := CoinSpent, spentBlock := btcBlock)];
      }
    }
    assert vins[..|vins|] == vins;
    d := tx.(utxos := utxos);
  }

  lemma SameVinsOf(a: seq<Vin>, b: seq<Vin>, orderId: string)
    requires SameVins(a, b)
    ensures VinsOf(a, orderId) == VinsOf(b, orderId)
  {
  }

  // ---------- The orders of a transaction, newest first ----------

  method InitializeRow(tx: Db, id: string, newest: bool, pid: nat) returns (r: Step)
    requires id in tx.orders
    ensures r == InitializeOrder(tx, id, newest, pid)
  {
    var order := tx.orders[id];
    if order.status != Aggregating && order.status != Closed {
      return Ok(tx);
    }
    order := order.(status := if newest then Init else Closed, pid := pid);
    var d := UpdateOtherStatusByOrder(SetOrderRow(tx, id, order), id, order.status, true);
    SameVinsOf(tx.vins, d.vins, id);
    d := d.(withdraws := WithdrawsByOrder(d.withdraws, id, {Create, Aggregating, Closed}, Init));
    if order.status != Init {
      return Ok(d);
    }
    r := HoldVins(d, id);
  }

  function SetOrderRow(tx: Db, id: string, o: Order): Db {
    tx.(orders := tx.orders[id := o])
  }

  method InitializeRows(tx: Db, txid: string, pid: nat) returns (r: Step)
    ensures r == UpdateWithdrawInitialized(tx, txid, pid)
  {
    var d, newest := tx, true;
    var n := |tx.orderIds|;
    for k := n downto 0
      invariant |d.orderIds| == n
      invariant InitializeOrders(d, k, txid, newest, pid) == UpdateWithdrawInitialized(tx, txid, pid)
    {
      var id := d.orderIds[k];
      if id in d.orders && d.orders[id].txid == txid {
        r := InitializeRow(d, id, newest, pid);
        if r.Err? {
          return;
        }
        d, newest := r.value, false;
      }
    }
    r := Ok(d);
  }

  method FinalizeRow(tx: Db, id: string, pid: Option<nat>) returns (r: Step)
    requires id in tx.orders
    ensures r == FinalizeOrder(tx, id, pid)
  {
    var order := tx.orders[id];
    var d := tx.(withdraws := WithdrawsByOrder(tx.withdraws, id, {}, Processed));
    if order.status != Init && order.status != Pending && order.status != Confirmed {
      return Ok(d);
    }
    order := order.(status := Processed);
    if pid.Some? {
      order := order.(pid := pid.value);
    }
    d := UpdateOtherStatusByOrder(SetOrderRow(d, id, order), id, Processed, true);
    SameVinsOf(tx.vins, d.vins, id);
    r := SpendVins(d, id, order.btcBlock);
  }

  method FinalizeRows(tx: Db, txid: string, pid: Option<nat>) returns (r: Step)
    ensures r == FinalizeTxid(tx, txid, pid)
  {
    var d := tx;
    var n := |tx.orderIds|;
    if NewestByTxid(tx.orders, tx.orderIds, txid).None? {
      return Ok(tx);
    }
    for k := n downto 0
      invariant |d.orderIds| == n
      invariant FinalizeOrders(d, k, txid, pid) == FinalizeOrders(tx, n, txid, pid)
    {
      var id := d.orderIds[k];
      if id in d.orders && d.orders[id].txid == txid {
        r := FinalizeRow(d, id, pid);
        if r.Err? {
          return;
        }
        d := r.value;
      }
    }
    r := Ok(UpdateOtherStatusByTxid(d, txid, Processed));
  }
}
