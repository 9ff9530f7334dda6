// UpdateWithdrawInitialized on a transaction whose newest order was closed.
//
// Closing an order returns its coins, so another order may have taken them before the closed one is opened
// again.  Reopening keeps the allocation invariant exactly when no other live order has taken one.
module Reopening {
  import opened Common
  import opened Models
  import opened WalletRows
  import opened OrderSteps
  import CoinSteps
  import opened WalletRuns
  import opened CoinRanks
  import opened OrderGraph
  import opened Allocation
  import opened Witnesses

  // The order that the first visited row of a transaction names.
  function NewestBelow(db: Db, k: nat, txid: string): Option<string>
    requires k <= |db.orderIds|
  {
    NewestByTxid(db.orders, db.orderIds[..k], txid)
  }

  // The status of every order after the loop.
  function StatusAfter(db: Db, k: nat, txid: string, newest: bool, id: string): Status
    requires k <= |db.orderIds| && id in db.orders
  {
    var s := db.orders[id].status;
    if newest && NewestBelow(db, k, txid) == Some(id) then (if s == Aggregating || s == Closed then Init else s)
    else if id in db.orderIds[..k] && db.orders[id].txid == txid && s == Aggregating then Closed
    else s
  }

  ghost predicate HasStatuses(db: Db, db': Db, k: nat, txid: string, newest: bool)
    requires k <= |db.orderIds|
  {
    && db'.orders.Keys == db.orders.Keys
    && forall id :: id in db.orders ==> db'.orders[id].status == StatusAfter(db, k, txid, newest, id)
  }

  lemma StatusesCompose(a: Db, b: Db, c: Db, k: nat, txid: string, newest: bool)
    requires 0 < k <= |a.orderIds| && b.orderIds == a.orderIds && b.orders.Keys == a.orders.Keys
    requires var id := a.orderIds[k - 1];
             && id in a.orders && a.orders[id].txid == txid
             && (forall x :: x in a.orders ==> b.orders[x].txid == a.orders[x].txid)
             && (forall x :: x in a.orders && x != id ==> b.orders[x].status == a.orders[x].status)
             && b.orders[id].status == (var s := a.orders[id].status;
                  if s == Aggregating || s == Closed then if newest then Init else Closed else s)
    requires HasStatuses(b, c, k - 1, txid, false)
    ensures HasStatuses(a, c, k, txid, newest)
  {
    assert a.orderIds[..k] == a.orderIds[..k - 1] + [a.orderIds[k - 1]];
    forall id | id in a.orders ensures c.orders[id].status == StatusAfter(a, k, txid, newest, id) {
    }
  }

  lemma {:induction false} InitializeStatuses(db: Db, k: nat, txid: string, newest: bool, pid: nat)
    requires k <= |db.orderIds|
    ensures var r := InitializeOrders(db, k, txid, newest, pid); r.Ok? ==> HasStatuses(db, r.value, k, txid, newest)
    decreases k
  {
    if k > 0 {
      var id := db.orderIds[k - 1];
      assert db.orderIds[..k] == db.orderIds[..k - 1] + [id];
      if id !in db.orders || db.orders[id].txid != txid {
        InitializeStatuses(db, k - 1, txid, newest, pid);
        SkippedStatuses(db, k, txid, newest);
      } else {
        var r := InitializeOrder(db, id, newest, pid);
        if r.Ok? {
          InitializeOneMoves(db, id, newest, pid);
          InitializeStatuses(r.value, k - 1, txid, false, pid);
          var r' := InitializeOrders(r.value, k - 1, txid, false, pid);
          if r'.Ok? {
            InitializeOneStatus(db, id, newest, pid);
            StatusesCompose(db, r.value, r'.value, k, txid, newest);
          }
        }
      }
    }
  }

  lemma SkippedStatuses(db: Db, k: nat, txid: string, newest: bool)
    requires 0 < k <= |db.orderIds|
    requires var id := db.orderIds[k - 1]; id !in db.orders || db.orders[id].txid != txid
    ensures forall id :: id in db.orders ==> StatusAfter(db, k, txid, newest, id) == StatusAfter(db, k - 1, txid, newest, id)
  {
    assert db.orderIds[..k] == db.orderIds[..k - 1] + [db.orderIds[k - 1]];
    assert db.orderIds[..k][..k - 1] == db.orderIds[..k - 1];
  }

  lemma {:induction false} InitializeSameVins(db: Db, k: nat, txid: string, newest: bool, pid: nat)
    requires k <= |db.orderIds|
    ensures var r := InitializeOrders(db, k, txid, newest, pid); r.Ok? ==> SameVins(db.vins, r.value.vins)
    decreases k
  {
    if k > 0 {
      var id := db.orderIds[k - 1];
      if id !in db.orders || db.orders[id].txid != txid {
        InitializeSameVins(db, k - 1, txid, newest, pid);
      } else {
        var r := InitializeOrder(db, id, newest, pid);
        if r.Ok? {
          FirstHolds(db, id, newest, pid);
          InitializeSameVins(r.value, k - 1, txid, false, pid);
        }
      }
    }
  }

  // A reopened order holds its coins afterwards.
  lemma {:induction false} ReopenedHolds(db: Db, k: nat, txid: string, pid: nat)
    requires k <= |db.orderIds|
    ensures var r := InitializeOrders(db, k, txid, true, pid);
            var id := NewestBelow(db, k, txid);
            r.Ok? && id.Some? && db.orders[id.value].status == Closed ==>
              forall op :: op in VinsOf(db.vins, id.value) ==> HeldAt(r.value, op)
    decreases k
  {
    if k > 0 {
      var id := db.orderIds[k - 1];
      assert db.orderIds[..k][..k - 1] == db.orderIds[..k - 1];
      if id !in db.orders || db.orders[id].txid != txid {
        ReopenedHolds(db, k - 1, txid, pid);
      } else {
        var r := InitializeOrder(db, id, true, pid);
        if r.Ok? {
          FirstHolds(db, id, true, pid);
          InitializeAdvances(r.value, k - 1, txid, false, pid);
        }
      }
    }
  }

  lemma FirstHolds(db: Db, id: string, newest: bool, pid: nat)
    requires id in db.orders && InitializeOrder(db, id, newest, pid).Ok?
    ensures var db' := InitializeOrder(db, id, newest, pid).value;
            && SameVins(db.vins, db'.vins)
            && (newest && db.orders[id].status == Closed ==>
                  forall op :: op in VinsOf(db.vins, id) ==> HeldAt(db', op))
  {
  }

  // An order that stays live although a transaction's orders are initialised: older aggregating orders of
  // that transaction are closed.
  ghost predicate StaysLive(db: Db, txid: string, id: string) {
    Live(db, id) && !(db.orders[id].txid == txid && db.orders[id].status == Aggregating && id in db.orderIds)
  }

  // No other order that stays live has taken a coin of the order.
  ghost predicate NotRetaken(db: Db, txid: string, id: string) {
    forall i, j :: 0 <= i < |db.vins| && 0 <= j < |db.vins|
      && db.vins[i].orderId == id && db.vins[j].orderId != id && StaysLive(db, txid, db.vins[j].orderId)
      ==> db.vins[i].prev != db.vins[j].prev
  }

  lemma LiveAfter(db: Db, db': Db, txid: string, id: string, x: string)
    requires HasStatuses(db, db', |db.orderIds|, txid, true)
    requires NewestByTxid(db.orders, db.orderIds, txid) == Some(id) && db.orders[id].status == Closed
    ensures Live(db', x) <==> x == id || StaysLive(db, txid, x)
    ensures Settled(db', x) <==> Settled(db, x)
  {
    assert db.orderIds[..|db.orderIds|] == db.orderIds;
  }

  lemma ReopenIff(db: Db, txid: string, pid: nat, id: string)
    requires NoDoubleAllocation(db) && UpdateWithdrawInitialized(db, txid, pid).Ok?
    requires NewestByTxid(db.orders, db.orderIds, txid) == Some(id) && db.orders[id].status == Closed
    ensures NoDoubleAllocation(UpdateWithdrawInitialized(db, txid, pid).value) <==> NotRetaken(db, txid, id)
  {
    var n := |db.orderIds|;
    var db' := UpdateWithdrawInitialized(db, txid, pid).value;
    assert db.orderIds[..n] == db.orderIds;
    InitializeStatuses(db, n, txid, true, pid);
    InitializeSameVins(db, n, txid, true, pid);
    ReopenedHolds(db, n, txid, pid);
    InitializeAdvances(db, n, txid, true, pid);
    forall x ensures Live(db', x) <==> x == id || StaysLive(db, txid, x)
             ensures Settled(db', x) <==> Settled(db, x) {
      LiveAfter(db, db', txid, id, x);
    }
    if NotRetaken(db, txid, id) {
      ReopenKeeps(db, db', txid, id);
    }
    if NoDoubleAllocation(db') {
      forall i, j | 0 <= i < |db.vins| && 0 <= j < |db.vins|
        && db.vins[i].orderId == id && db.vins[j].orderId != id && StaysLive(db, txid, db.vins[j].orderId)
        ensures db.vins[i].prev != db.vins[j].prev
      {
        var a, b := if i < j then i else j, if i < j then j else i;
        assert Live(db', db'.vins[a].orderId) && Live(db', db'.vins[b].orderId);
      }
    }
  }

  lemma ReopenKeeps(db: Db, db': Db, txid: string, id: string)
    requires NoDoubleAllocation(db) && NotRetaken(db, txid, id)
    requires SameVins(db.vins, db'.vins) && Advances(db.utxos, db'.utxos) && db'.orders.Keys == db.orders.Keys
    requires forall x :: (Live(db', x) <==> x == id || StaysLive(db, txid, x)) && (Settled(db', x) <==> Settled(db, x))
    requires forall op :: op in VinsOf(db.vins, id) ==> HeldAt(db', op)
    ensures NoDoubleAllocation(db')
  {
    forall i | 0 <= i < |db'.vins| && Live(db', db'.vins[i].orderId) ensures HeldAt(db', db'.vins[i].prev) {
      if db.vins[i].orderId == id {
        assert db.vins[i].prev in VinsOf(db.vins, id);
      }
    }
  }

  // ---------- A run that promises one coin twice ----------

  // A proposer's order is cleaned up, and its next order takes the coin.
  function TakeOver(): seq<Event> {
    OneOrder(true) + [Cleaned] + [OrderCreated(Paying("second", "tx2", 0, 7), true)]
  }

  // The first order is closed, the second one took its coin.
  ghost predicate CoinTakenOver(db: Db) {
    && db.orderIds == ["first", "second"]
    && HasOrderIn(db, "first", "tx1", Closed) && HasOrderIn(db, "second", "tx2", Aggregating)
    && |db.vins| == 2 && db.vins[0].orderId == "first" && db.vins[1].orderId == "second"
    && db.vins[0].prev == db.vins[1].prev && db.vins[0].prev in db.utxos
  }

  lemma CleansFirst(build: CoinSteps.ScriptBuilder, db: Db)
    requires db.orderIds == ["first"] && HasOrderIn(db, "first", "tx1", Aggregating)
    ensures Apply(build, db, Cleaned) == CloseOrder(db, "first")
  {
    assert FirstInStatus(db.orders, db.orderIds, Aggregating) == Some("first");
    assert Try(build, db, Cleaned) == Ok(CleanProcessingWithdraw(db));
  }

  // Closing the order frees its coin and its withdrawal.
  lemma ClosedFirst(db: Db)
    requires OneOrdered(db, Aggregating) && HasWithdraw(db, 7, Aggregating) && db.withdraws[7].orderId == "first"
    requires db.utxos[Coin(0).outPoint].status == CoinPending
    ensures var d := CloseOrder(db, "first"); OneOrdered(d, Closed) && Free(d, 0) && HasWithdraw(d, 7, Create)
  {
    assert Coin(0).outPoint in VinsOf(db.vins, "first");
  }

  lemma TakesOver(db: Db)
    requires OneOrdered(db, Closed) && Free(db, 0) && HasWithdraw(db, 7, Create)
    ensures var r := CreateSendOrder(db, Paying("second", "tx2", 0, 7), true); r.Ok? && CoinTakenOver(r.value)
  {
    Pay(db, "second", "tx2", 0, 7, true);
  }

  lemma TakeOverFacts(build: CoinSteps.ScriptBuilder)
    ensures CoinTakenOver(Run(build, EMPTY_DB, TakeOver()))
  {
    var db := Run(build, EMPTY_DB, OneOrder(true));
    OneOrderFacts(build, true);
    CleansFirst(build, db);
    ClosedFirst(db);
    TakesOver(CloseOrder(db, "first"));
    Created(build, CloseOrder(db, "first"), Paying("second", "tx2", 0, 7), true);
    RunSnoc(build, EMPTY_DB, OneOrder(true), Cleaned);
    RunSnoc(build, EMPTY_DB, OneOrder(true) + [Cleaned], OrderCreated(Paying("second", "tx2", 0, 7), true));
  }

  // Of two orders of different transactions only one is visited.
  lemma OnlyFirst(db: Db)
    requires db.orderIds == ["first", "second"] && "first" in db.orders && "second" in db.orders
    requires db.orders["first"].txid == "tx1" && db.orders["second"].txid == "tx2"
    requires VinsOf(db.vins, "first") <= db.utxos.Keys
    ensures InitializeOrder(db, "first", true, 1).Ok?
    ensures UpdateWithdrawInitialized(db, "tx1", 1) == InitializeOrder(db, "first", true, 1)
  {
    assert InitializeOrders(db, 2, "tx1", true, 1) == InitializeOrders(db, 1, "tx1", true, 1);
    var first := InitializeOrder(db, "first", true, 1);
    assert InitializeOrders(db, 1, "tx1", true, 1) == InitializeOrders(first.value, 0, "tx1", false, 1);
  }

  lemma ReopensFirst(db: Db)
    requires db.orderIds == ["first", "second"] && "first" in db.orders && "second" in db.orders
    requires db.orders["first"].status == Closed && db.orders["first"].txid == "tx1"
    requires db.orders["second"].status == Aggregating && db.orders["second"].txid == "tx2"
    requires VinsOf(db.vins, "first") <= db.utxos.Keys
    ensures var r := UpdateWithdrawInitialized(db, "tx1", 1);
            r.Ok? && SameVins(db.vins, r.value.vins) && Live(r.value, "first") && Live(r.value, "second")
  {
    OnlyFirst(db);
    FirstHolds(db, "first", true, 1);
    InitializeOneStatus(db, "first", true, 1);
  }

  lemma TakenOverThenReopened(db: Db)
    requires CoinTakenOver(db)
    ensures UpdateWithdrawInitialized(db, "tx1", 1).Ok?
    ensures !Exclusive(UpdateWithdrawInitialized(db, "tx1", 1).value)
  {
    ReopensFirst(db);
    var db' := UpdateWithdrawInitialized(db, "tx1", 1).value;
    assert db'.vins[0].prev == db'.vins[1].prev;
  }

  // Reopening the first order now succeeds and leaves the coin promised to both transactions.
  lemma ReopenPromisesTwice(build: CoinSteps.ScriptBuilder)
    ensures var db := Run(build, EMPTY_DB, TakeOver());
            && UpdateWithdrawInitialized(db, "tx1", 1).Ok?
            && !Exclusive(UpdateWithdrawInitialized(db, "tx1", 1).value)
  {
    TakeOverFacts(build);
    TakenOverThenReopened(Run(build, EMPTY_DB, TakeOver()));
  }
}
