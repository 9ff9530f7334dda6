// Creating a send order and cleaning it again.
module Rollback {
  import opened Common
  import opened Models
  import opened WalletRows
  import opened OrderSteps
  import opened Allocation
  import CoinSteps
  import OrderGraph
  import opened WalletRuns
  import opened Witnesses

  ghost predicate CanSpend(db: Db, op: OutPoint) {
    op in db.utxos && Spendable(db.utxos[op])
  }

  // No row carries the order id yet; the wallet draws a new random one for every order.
  ghost predicate UnusedId(db: Db, id: string) {
    && (forall i :: 0 <= i < |db.vins| ==> db.vins[i].orderId != id)
    && (forall w :: w in db.withdraws ==> db.withdraws[w].orderId != id)
    && (forall t :: t in db.tasks ==> db.tasks[t].orderId != id)
  }

  // A successful order takes exactly its coins out of the spendable set; they were pairwise distinct and spendable.
  lemma CreateTakesCoins(db: Db, n: NewOrder, isProposer: bool, op: OutPoint)
    requires CreateSendOrder(db, n, isProposer).Ok?
    ensures CoinsFree(db.utxos, n.coins)
    ensures CanSpend(CreateSendOrder(db, n, isProposer).value, op) <==> CanSpend(db, op) && op !in n.coins
  {
  }

  ghost predicate SameStatuses(db: Db, db': Db) {
    && (forall op :: CanSpend(db', op) <==> CanSpend(db, op))
    && db'.utxos.Keys == db.utxos.Keys
    && db'.withdraws.Keys == db.withdraws.Keys
    && (forall w :: w in db.withdraws ==> db'.withdraws[w].status == db.withdraws[w].status)
    && db'.tasks.Keys == db.tasks.Keys
    && (forall t :: t in db.tasks ==> db'.tasks[t].status == db.tasks[t].status)
  }

  lemma OrderVins(db: Db, n: NewOrder)
    requires UnusedId(db, n.order.orderId) && ProperOrder(n)
    ensures VinsOf(db.vins + n.vins, n.order.orderId) == ToSet(n.coins)
  {
    var all := db.vins + n.vins;
    forall op | op in ToSet(n.coins) ensures op in VinsOf(all, n.order.orderId) {
      var i :| 0 <= i < |n.coins| && n.coins[i] == op;
      assert all[|db.vins| + i] == n.vins[i];
    }
    forall op | op in VinsOf(all, n.order.orderId) ensures op in ToSet(n.coins) {
      var i :| 0 <= i < |all| && all[i].orderId == n.order.orderId && all[i].prev == op;
      assert i >= |db.vins| && all[i] == n.vins[i - |db.vins|] && n.coins[i - |db.vins|] == op;
    }
  }

  lemma CloseUndoesCreate(db: Db, n: NewOrder)
    requires CreateSendOrder(db, n, true).Ok? && ProperOrder(n) && UnusedId(db, n.order.orderId)
    ensures SameStatuses(db, CloseOrder(CreateSendOrder(db, n, true).value, n.order.orderId))
  {
    OrderVins(db, n);
    var db1 := CreateSendOrder(db, n, true).value;
    var db2 := CloseOrder(db1, n.order.orderId);
    CoinsRestored(db, n);
    forall w | w in db.withdraws ensures w in db2.withdraws && db2.withdraws[w].status == db.withdraws[w].status {
      if w in n.withdrawIds && n.order.orderType == Withdrawal {
        assert WithdrawsTakeable(db.withdraws, n.withdrawIds, true);
      }
    }
    forall t | t in db.tasks ensures t in db2.tasks && db2.tasks[t].status == db.tasks[t].status {
      if t in n.taskIds && n.order.orderType == Safebox {
        assert TasksTakeable(db.tasks, n.taskIds, true);
      }
    }
  }

  lemma CoinsRestored(db: Db, n: NewOrder)
    requires CoinsFree(db.utxos, n.coins)
    ensures var after := ReleaseCoins(HoldCoins(db.utxos, ToSet(n.coins)), ToSet(n.coins));
            && after.Keys == db.utxos.Keys
            && forall op :: op in db.utxos ==> (Spendable(after[op]) <==> Spendable(db.utxos[op]))
  {
  }

  // Cleaning a proposer's order by its id restores the spendable set and every withdrawal and task status.
  lemma RollbackById(db: Db, n: NewOrder)
    requires CreateSendOrder(db, n, true).Ok? && ProperOrder(n) && UnusedId(db, n.order.orderId)
    ensures SameStatuses(db, CleanProcessingWithdrawByOrderId(CreateSendOrder(db, n, true).value, n.order.orderId))
  {
    CloseUndoesCreate(db, n);
  }

  lemma {:induction false} OnlyAggregating(orders: map<string, Order>, ids: seq<string>, id: string)
    requires id in orders && orders[id].status == Aggregating && id in ids
    requires forall x :: x in orders && orders[x].status == Aggregating ==> x == id
    ensures FirstInStatus(orders, ids, Aggregating) == Some(id)
  {
  }

  // So does the general cleaning when no other order is aggregating.
  lemma RollbackByCleaning(db: Db, n: NewOrder)
    requires CreateSendOrder(db, n, true).Ok? && ProperOrder(n) && UnusedId(db, n.order.orderId)
    requires forall x :: x in db.orders ==> db.orders[x].status != Aggregating
    ensures SameStatuses(db, CleanProcessingWithdraw(CreateSendOrder(db, n, true).value))
  {
    var db1 := CreateSendOrder(db, n, true).value;
    var id := n.order.orderId;
    assert db1.orderIds[|db.orderIds|] == id;
    OnlyAggregating(db1.orders, db1.orderIds, id);
    CloseUndoesCreate(db, n);
  }

  predicate Aggregates(db: Db, id: string) {
    id in db.orders && db.orders[id].status == Aggregating
  }

  // After a cleaning step nothing aggregates exactly when at most one order did before.
  lemma CleanClosesAllIff(db: Db)
    requires OrderGraph.Listed(db)
    ensures (forall id :: !Aggregates(CleanProcessingWithdraw(db), id))
            <==> forall a, b :: Aggregates(db, a) && Aggregates(db, b) ==> a == b
  {
    var first := FirstInStatus(db.orders, db.orderIds, Aggregating);
    var after := CleanProcessingWithdraw(db);
    if first.Some? {
      forall id ensures Aggregates(after, id) <==> Aggregates(db, id) && id != first.value {
        OthersStay(db, first.value, id);
      }
      if forall id :: !Aggregates(after, id) {
        forall a, b | Aggregates(db, a) && Aggregates(db, b) ensures a == b {
          assert !Aggregates(after, a) && !Aggregates(after, b);
        }
      } else {
        var id :| Aggregates(after, id);
        assert Aggregates(db, first.value) && Aggregates(db, id);
      }
    } else {
      assert forall id :: !Aggregates(db, id);
    }
  }

  lemma OthersStay(db: Db, closed: string, id: string)
    requires Aggregates(db, closed)
    ensures Aggregates(CloseOrder(db, closed), id) <==> Aggregates(db, id) && id != closed
  {
  }

  // Two orders can aggregate at once, and one of them survives the cleaning.
  lemma CleaningLeavesOne(build: CoinSteps.ScriptBuilder)
    ensures var db := Run(build, EMPTY_DB, TwoOrders());
            && HasOrderIn(db, "first", "tx1", Aggregating) && HasOrderIn(db, "second", "tx2", Aggregating)
            && HasOrderIn(CleanProcessingWithdraw(db), "first", "tx1", Closed)
            && HasOrderIn(CleanProcessingWithdraw(db), "second", "tx2", Aggregating)
  {
    TwoOrdersFacts(build);
    FirstIsClosed(Run(build, EMPTY_DB, TwoOrders()));
  }

  lemma FirstIsClosed(db: Db)
    requires db.orderIds == ["first", "second"]
    requires HasOrderIn(db, "first", "tx1", Aggregating) && HasOrderIn(db, "second", "tx2", Aggregating)
    ensures HasOrderIn(CleanProcessingWithdraw(db), "first", "tx1", Closed)
    ensures HasOrderIn(CleanProcessingWithdraw(db), "second", "tx2", Aggregating)
  {
  }
}
