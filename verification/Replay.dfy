// Steps that the layer-2 listener may deliver twice.
module Replay {
  import opened Common
  import opened Models
  import opened WalletRows
  import opened OrderSteps
  import opened CoinSteps
  import opened TaskSteps
  import opened WalletRuns

  // ---------- UpdateWithdrawInitialized ----------

  // The rows of a closed order are already as InitializeOrder leaves them.
  ghost predicate Initialized(db: Db, id: string, pid: nat) {
    id in db.orders && db.orders[id].status != Aggregating &&
    (db.orders[id].status == Closed ==>
      && db.orders[id].pid == pid
      && (forall i :: 0 <= i < |db.vins| && db.vins[i].orderId == id ==> db.vins[i].status == Closed)
      && (forall i :: 0 <= i < |db.vouts| && db.vouts[i].orderId == id ==> db.vouts[i].status == Closed)
      && (forall w :: w in db.withdraws && db.withdraws[w].orderId == id ==>
            db.withdraws[w].status !in {Create, Aggregating, Closed}))
  }

  lemma InitializeMakes(db: Db, id: string, newest: bool, pid: nat)
    requires id in db.orders && InitializeOrder(db, id, newest, pid).Ok?
    ensures var db' := InitializeOrder(db, id, newest, pid).value;
            Initialized(db', id, pid) && (newest ==> db'.orders[id].status != Closed)
  {
  }

  lemma InitializeKeepsOthers(db: Db, id: string, newest: bool, pid: nat, other: string)
    requires id in db.orders && InitializeOrder(db, id, newest, pid).Ok? && other != id
    requires Initialized(db, other, pid)
    ensures Initialized(InitializeOrder(db, id, newest, pid).value, other, pid)
  {
  }

  lemma InitializedIsFixed(db: Db, id: string, pid: nat)
    requires Initialized(db, id, pid)
    ensures InitializeOrder(db, id, false, pid) == Ok(db)
  {
    if db.orders[id].status == Closed {
      var db' := InitializeOrder(db, id, false, pid).value;
      assert db'.vins == db.vins;
      assert db'.vouts == db.vouts;
      assert db'.withdraws == db.withdraws;
      assert db'.orders == db.orders;
    }
  }

  // All orders of the transaction below a row are initialised, and the newest one is not closed.
  ghost predicate AllInitialized(db: Db, k: nat, txid: string, pid: nat)
    requires k <= |db.orderIds|
  {
    forall j :: 0 <= j < k && db.orderIds[j] in db.orders && db.orders[db.orderIds[j]].txid == txid ==>
      Initialized(db, db.orderIds[j], pid)
  }

  ghost predicate NewestNotClosed(db: Db, k: nat, txid: string)
    requires k <= |db.orderIds|
  {
    var newest := NewestByTxid(db.orders, db.orderIds[..k], txid);
    newest.Some? ==> db.orders[newest.value].status != Closed
  }

  lemma {:induction false} FixedLoop(db: Db, k: nat, txid: string, newest: bool, pid: nat)
    requires k <= |db.orderIds| && AllInitialized(db, k, txid, pid) && (newest ==> NewestNotClosed(db, k, txid))
    ensures InitializeOrders(db, k, txid, newest, pid) == Ok(db)
    decreases k
  {
    if k > 0 {
      var id := db.orderIds[k - 1];
      assert db.orderIds[..k][..k - 1] == db.orderIds[..k - 1];
      if id in db.orders && db.orders[id].txid == txid {
        InitializedIsFixed(db, id, pid);
        FixedLoop(db, k - 1, txid, false, pid);
      } else {
        FixedLoop(db, k - 1, txid, newest, pid);
      }
    }
  }

  lemma AllInitializedMore(db: Db, k: nat, txid: string, pid: nat)
    requires 0 < k <= |db.orderIds| && AllInitialized(db, k - 1, txid, pid)
    requires var id := db.orderIds[k - 1]; id in db.orders && db.orders[id].txid == txid ==> Initialized(db, id, pid)
    ensures AllInitialized(db, k, txid, pid)
  {
  }

  // What one pass of the loop leaves: the orders it does not visit keep their initialised rows.
  lemma {:induction false} LoopInitializes(db: Db, k: nat, txid: string, newest: bool, pid: nat)
    requires k <= |db.orderIds| && InitializeOrders(db, k, txid, newest, pid).Ok?
    ensures var db' := InitializeOrders(db, k, txid, newest, pid).value;
            && db'.orderIds == db.orderIds && db'.orders.Keys == db.orders.Keys
            && (forall x :: x in db.orders ==> db'.orders[x].txid == db.orders[x].txid)
            && (forall x :: Initialized(db, x, pid) ==> Initialized(db', x, pid))
            && (forall x :: x in db.orders && db.orders[x].status !in {Aggregating, Closed} ==>
                  db'.orders[x].status == db.orders[x].status)
            && AllInitialized(db', k, txid, pid)
    decreases k
  {
    if k > 0 {
      var id := db.orderIds[k - 1];
      if id in db.orders && db.orders[id].txid == txid {
        var d := InitializeOrder(db, id, newest, pid).value;
        OneInitializes(db, id, newest, pid);
        LoopInitializes(d, k - 1, txid, false, pid);
      } else {
        LoopInitializes(db, k - 1, txid, newest, pid);
      }
      AllInitializedMore(InitializeOrders(db, k, txid, newest, pid).value, k, txid, pid);
    }
  }

  lemma OneInitializes(db: Db, id: string, newest: bool, pid: nat)
    requires id in db.orders && InitializeOrder(db, id, newest, pid).Ok?
    ensures var db' := InitializeOrder(db, id, newest, pid).value;
            && db'.orderIds == db.orderIds && db'.orders.Keys == db.orders.Keys
            && (forall x :: x in db.orders ==> db'.orders[x].txid == db.orders[x].txid)
            && (forall x :: Initialized(db, x, pid) ==> Initialized(db', x, pid))
            && (forall x :: x in db.orders && db.orders[x].status !in {Aggregating, Closed} ==>
                  db'.orders[x].status == db.orders[x].status)
            && Initialized(db', id, pid) && (newest ==> db'.orders[id].status != Closed)
  {
    var db' := InitializeOrder(db, id, newest, pid).value;
    InitializeMakes(db, id, newest, pid);
    forall x | Initialized(db, x, pid) ensures Initialized(db', x, pid) {
      if x != id {
        InitializeKeepsOthers(db, id, newest, pid, x);
      }
    }
    RowsElsewhere(db, id, newest, pid);
  }

  lemma RowsElsewhere(db: Db, id: string, newest: bool, pid: nat)
    requires id in db.orders && InitializeOrder(db, id, newest, pid).Ok?
    ensures var db' := InitializeOrder(db, id, newest, pid).value;
            && db'.orderIds == db.orderIds && db'.orders.Keys == db.orders.Keys
            && (forall x :: x in db.orders ==> db'.orders[x].txid == db.orders[x].txid)
            && (forall x :: x in db.orders && db.orders[x].status !in {Aggregating, Closed} ==>
                  db'.orders[x].status == db.orders[x].status)
  {
  }

  lemma {:induction false} LoopOpensNewest(db: Db, k: nat, txid: string, pid: nat)
    requires k <= |db.orderIds| && InitializeOrders(db, k, txid, true, pid).Ok?
    ensures var db' := InitializeOrders(db, k, txid, true, pid).value;
            db'.orderIds == db.orderIds && NewestNotClosed(db', k, txid)
    decreases k
  {
    if k > 0 {
      var id := db.orderIds[k - 1];
      assert db.orderIds[..k][..k - 1] == db.orderIds[..k - 1];
      if id in db.orders && db.orders[id].txid == txid {
        var d := InitializeOrder(db, id, true, pid).value;
        OneInitializes(db, id, true, pid);
        LoopInitializes(d, k - 1, txid, false, pid);
      } else {
        LoopOpensNewest(db, k - 1, txid, pid);
        LoopInitializes(db, k - 1, txid, true, pid);
      }
    }
  }

  // ---------- UpdateWithdrawFinalized ----------

  // Another pass over the order changes nothing.
  ghost predicate Finalized(db: Db, id: string) {
    && id in db.orders && db.orders[id].status !in {Init, Pending, Confirmed}
    && forall w :: w in db.withdraws && db.withdraws[w].orderId == id ==> db.withdraws[w].status == Processed
  }

  ghost predicate AllFinalized(db: Db, k: nat, txid: string)
    requires k <= |db.orderIds|
  {
    forall j :: 0 <= j < k && db.orderIds[j] in db.orders && db.orders[db.orderIds[j]].txid == txid ==>
      Finalized(db, db.orderIds[j])
  }

  lemma FinalizeMakes(db: Db, id: string, pid: Option<nat>, x: string)
    requires id in db.orders && FinalizeOrder(db, id, pid).Ok? && (x == id || Finalized(db, x))
    ensures Finalized(FinalizeOrder(db, id, pid).value, x)
  {
  }

  lemma OneFinalizes(db: Db, id: string, pid: Option<nat>)
    requires id in db.orders && FinalizeOrder(db, id, pid).Ok?
    ensures var db' := FinalizeOrder(db, id, pid).value;
            && db'.orderIds == db.orderIds && db'.orders.Keys == db.orders.Keys
            && (forall x :: x in db.orders ==> db'.orders[x].txid == db.orders[x].txid)
            && (forall x :: Finalized(db, x) ==> Finalized(db', x))
            && Finalized(db', id)
  {
    FinalizeMakes(db, id, pid, id);
    forall x | Finalized(db, x) ensures Finalized(FinalizeOrder(db, id, pid).value, x) {
      FinalizeMakes(db, id, pid, x);
    }
  }

  lemma AllFinalizedMore(db: Db, k: nat, txid: string)
    requires 0 < k <= |db.orderIds| && AllFinalized(db, k - 1, txid)
    requires var id := db.orderIds[k - 1]; id in db.orders && db.orders[id].txid == txid ==> Finalized(db, id)
    ensures AllFinalized(db, k, txid)
  {
  }

  lemma {:induction false} LoopFinalizes(db: Db, k: nat, txid: string, pid: Option<nat>)
    requires k <= |db.orderIds| && FinalizeOrders(db, k, txid, pid).Ok?
    ensures var db' := FinalizeOrders(db, k, txid, pid).value;
            && db'.orderIds == db.orderIds && db'.orders.Keys == db.orders.Keys
            && (forall x :: x in db.orders ==> db'.orders[x].txid == db.orders[x].txid)
            && (forall x :: Finalized(db, x) ==> Finalized(db', x))
            && AllFinalized(db', k, txid)
    decreases k
  {
    if k > 0 {
      var id := db.orderIds[k - 1];
      if id in db.orders && db.orders[id].txid == txid {
        OneFinalizes(db, id, pid);
        LoopFinalizes(FinalizeOrder(db, id, pid).value, k - 1, txid, pid);
      } else {
        LoopFinalizes(db, k - 1, txid, pid);
      }
      AllFinalizedMore(FinalizeOrders(db, k, txid, pid).value, k, txid);
    }
  }

  lemma {:induction false} FinalizedLoop(db: Db, k: nat, txid: string, pid: Option<nat>)
    requires k <= |db.orderIds| && AllFinalized(db, k, txid)
    ensures FinalizeOrders(db, k, txid, pid) == Ok(db)
    decreases k
  {
    if k > 0 {
      var id := db.orderIds[k - 1];
      if id in db.orders && db.orders[id].txid == txid {
        assert WithdrawsByOrder(db.withdraws, id, {}, Processed) == db.withdraws;
      }
      FinalizedLoop(db, k - 1, txid, pid);
    }
  }

  lemma TxidUpdateTwice(db: Db, txid: string)
    ensures var d := UpdateOtherStatusByTxid(db, txid, Processed); UpdateOtherStatusByTxid(d, txid, Processed) == d
  {
    var d := UpdateOtherStatusByTxid(db, txid, Processed);
    var d' := UpdateOtherStatusByTxid(d, txid, Processed);
    assert d'.withdraws == d.withdraws;
    assert d'.tasks == d.tasks;
    assert d'.vins == d.vins;
    assert d'.vouts == d.vouts;
  }

  lemma TxidUpdateKeepsFinalized(db: Db, k: nat, txid: string)
    requires k <= |db.orderIds| && AllFinalized(db, k, txid)
    ensures AllFinalized(UpdateOtherStatusByTxid(db, txid, Processed), k, txid)
  {
  }

  lemma SameNewest(db: Db, db': Db, ids: seq<string>, txid: string)
    requires db'.orders.Keys == db.orders.Keys
    requires forall x :: x in db.orders ==> db'.orders[x].txid == db.orders[x].txid
    ensures NewestByTxid(db'.orders, ids, txid) == NewestByTxid(db.orders, ids, txid)
  {
  }

  lemma FinalizeTwice(db: Db, txid: string, pid: Option<nat>)
    requires FinalizeTxid(db, txid, pid).Ok?
    ensures FinalizeTxid(FinalizeTxid(db, txid, pid).value, txid, pid) == FinalizeTxid(db, txid, pid)
  {
    if HasOrder(db, txid) {
      var n := |db.orderIds|;
      var d := FinalizeOrders(db, n, txid, pid).value;
      var d' := UpdateOtherStatusByTxid(d, txid, Processed);
      LoopFinalizes(db, n, txid, pid);
      TxidUpdateKeepsFinalized(d, n, txid);
      FinalizedLoop(d', n, txid, pid);
      TxidUpdateTwice(d, txid);
      SameNewest(db, d', db.orderIds, txid);
    }
  }

  // ---------- The other steps ----------

  lemma RecoverTwice(build: ScriptBuilder, db: Db, e: Event)
    requires e.OrderRecovered?
    ensures Apply(build, Apply(build, db, e), e) == Apply(build, db, e)
  {
  }

  lemma DepositTwice(db: Db, op: OutPoint, address: string, amount: nat, hash: string)
    ensures var d := AddDepositResult(db, op, address, amount, hash);
            AddDepositResult(d, op, address, amount, hash) == d
  {
    var d := AddDepositResult(db, op, address, amount, hash);
    DepositFacts(db, op, address, amount, hash);
    DepositFixed(d, op, address, amount, hash);
  }

  lemma DepositFacts(db: Db, op: OutPoint, address: string, amount: nat, hash: string)
    ensures var d := AddDepositResult(db, op, address, amount, hash);
            && (op in d.utxos ==> Rank(d.utxos[op].status) >= Rank(CoinProcessed))
            && op in d.deposits && d.deposits[op].needFetchSubScript == NeedsFetch(d, op)
  {
  }

  lemma DepositFixed(d: Db, op: OutPoint, address: string, amount: nat, hash: string)
    requires op in d.utxos ==> Rank(d.utxos[op].status) >= Rank(CoinProcessed)
    requires op in d.deposits && d.deposits[op].needFetchSubScript == NeedsFetch(d, op)
    ensures AddDepositResult(d, op, address, amount, hash) == d
  {
    var d' := AddDepositResult(d, op, address, amount, hash);
    assert d'.utxos == d.utxos;
    assert d'.deposits == d.deposits;
  }

  lemma InitializeTwice(db: Db, txid: string, pid: nat)
    requires UpdateWithdrawInitialized(db, txid, pid).Ok?
    ensures UpdateWithdrawInitialized(UpdateWithdrawInitialized(db, txid, pid).value, txid, pid)
            == UpdateWithdrawInitialized(db, txid, pid)
  {
    var n := |db.orderIds|;
    LoopInitializes(db, n, txid, true, pid);
    LoopOpensNewest(db, n, txid, pid);
    FixedLoop(UpdateWithdrawInitialized(db, txid, pid).value, n, txid, true, pid);
  }

  predicate Replayable(e: Event) {
    e.WithdrawCreated? || e.OrderRecovered? || e.WithdrawInitialized? || e.WithdrawFinalized? || e.DepositSeen?
  }

  // Delivering one of these steps twice in a row has the effect of delivering it once, errors included.
  lemma ReplayIsIdempotent(build: ScriptBuilder, db: Db, e: Event)
    requires Replayable(e)
    ensures Apply(build, Apply(build, db, e), e) == Apply(build, db, e)
  {
    match e {
      case WithdrawCreated(w) =>
      case OrderRecovered(_, _, _, _) => RecoverTwice(build, db, e);
      case WithdrawInitialized(txid, pid) =>
        if UpdateWithdrawInitialized(db, txid, pid).Ok? {
          InitializeTwice(db, txid, pid);
        }
      case WithdrawFinalized(txid, pid) =>
        if FinalizeTxid(db, txid, Some(pid)).Ok? {
          FinalizeTwice(db, txid, Some(pid));
        }
      case DepositSeen(op, address, amount, hash) => DepositTwice(db, op, address, amount, hash);
    }
  }
}
