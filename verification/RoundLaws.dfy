// Which branch a round takes, whom it starts and whom it keeps waiting, in numbers.
module RoundLaws {
  import opened Common
  import opened Models
  import opened Sums
  import opened Sets
  import opened TxSize
  import opened CoinSelection
  import opened BatchSelection
  import opened TxBuilder
  import opened WalletRows
  import opened Keys
  import opened BatchLaws
  import opened SelectionLaws
  import opened RoundTheorems
  import opened WalletServer

  // ---------- Rounds in numbers ----------

  // Rows without repeated keys are as many as their keys.
  lemma RowsCount<T(!new), K>(key: T -> K, rows: seq<T>, keys: set<K>)
    requires DistinctKeys(key, rows) && (forall x :: x in rows ==> key(x) in keys)
    requires forall k :: k in keys ==> exists i :: 0 <= i < |rows| && key(rows[i]) == k
    ensures |rows| == |keys|
  {
    var ks := seq(|rows|, i requires 0 <= i < |rows| => key(rows[i]));
    forall k ensures k in ks <==> k in keys {
      if k in ks {
        var i :| 0 <= i < |ks| && ks[i] == k;
        assert rows[i] in rows;
      }
      if k in keys {
        var i :| 0 <= i < |rows| && key(rows[i]) == k;
        assert ks[i] == k;
      }
    }
    assert Elements(ks) == keys;
    ElementsSize(ks);
  }

  // The withdrawals of a band that wait in the table.
  function WaitingIn(db: Db, fee: NetworkFee, b: Band): set<nat> {
    set id | id in db.withdraws && db.withdraws[id].status == Create && Joins(fee, b, db.withdraws[id])
  }

  lemma {:induction false} MembersDistinct(all: seq<Withdraw>, fee: NetworkFee, b: Band)
    requires DistinctKeys(RequestIdOf, all)
    ensures DistinctKeys(RequestIdOf, Members(all, fee, b))
    decreases |all|
  {
    if all != [] {
      var front, last := all[..|all| - 1], all[|all| - 1];
      MembersDistinct(front, fee, b);
      forall w | w in Members(front, fee, b) ensures RequestIdOf(w) != RequestIdOf(last) {
        var i :| 0 <= i < |front| && front[i] == w;
        assert all[i] == w;
      }
    }
  }

  lemma WaitingCount(db: Db, all: seq<Withdraw>, fee: NetworkFee, b: Band)
    requires Keyed(db) && WaitingRows(db, all)
    ensures |Members(all, fee, b)| == |WaitingIn(db, fee, b)|
    ensures forall w :: w in all && Joins(fee, b, w) ==> w.requestId in WaitingIn(db, fee, b) && db.withdraws[w.requestId] == w
  {
    var ws := Members(all, fee, b);
    MembersDistinct(all, fee, b);
    forall id | id in WaitingIn(db, fee, b) ensures exists i :: 0 <= i < |ws| && RequestIdOf(ws[i]) == id {
      assert db.withdraws[id] in ws;
      var i :| 0 <= i < |ws| && ws[i] == db.withdraws[id];
    }
    RowsCount(RequestIdOf, ws, WaitingIn(db, fee, b));
  }

  // Ten and twenty minutes, or five and ten on the regression network, in nanoseconds.
  lemma RoundPolicy(t: Setting)
    ensures var p := PolicyOf(t);
            && p.maxVout == 32 && p.immediateCount == 32 && p.now == t.now
            && p.wait1 == (if t.network == "regtest" then 300_000_000_000 else 600_000_000_000)
            && p.wait2 == (if t.network == "regtest" then 600_000_000_000 else 1_200_000_000_000)
  {
  }

  // A band of so many withdrawals may be kept waiting at such an age of each of them.
  predicate HeldBack(network: string, age: int, count: nat) {
    var first, second := if network == "regtest" then 300_000_000_000 else 600_000_000_000,
                         if network == "regtest" then 600_000_000_000 else 1_200_000_000_000;
    count < 32 && age < second + SECOND && (count >= 10 ==> age < first + SECOND)
  }

  // A band of so many withdrawals may be started for one of such an age.
  predicate Due(network: string, age: int, count: nat) {
    var first, second := if network == "regtest" then 300_000_000_000 else 600_000_000_000,
                         if network == "regtest" then 600_000_000_000 else 1_200_000_000_000;
    count >= 32 || (age > first && count >= 10) || age > second
  }

  // Once a demand is chosen, a round does not end without a batch.
  lemma PaidHasBatch(t: Setting, pool: seq<Utxo>, d: Demand, r: Ending)
    requires PaidOptimally(t, pool, d, r)
    ensures !r.NotSelected? && !r.NoCoins? && !r.NoTask? && !r.NoWithdrawals? && !r.NotConsolidated? && !r.Ignored?
  {
    var sel := HasCoins(t, pool, d, r);
    if !r.NotFunded? {
      var s := HasPrices(t, sel, d, r);
      BuiltEnding(t, ParamsFor(t, d.ws, d.tasks, s, d.price), r);
    }
  }

  lemma BuiltEnding(t: Setting, p: Params, r: Ending)
    requires EndsAs(t, p, r)
    ensures r.Hangs? || r.NotBuilt? || r.NotSaved? || r.Running?
  {
  }

  lemma SafeboxHasNoBatch(t: Setting, pool: seq<Utxo>, tasks: seq<Task>, r: Ending)
    requires SafeboxOutcome(t, pool, tasks, r)
    ensures !r.NotSelected?
  {
    if t.fee.halfHour <= t.maxNetworkFee {
      var task :| task in tasks && PaidOptimally(t, pool, TaskDemand(t, task), r);
      PaidHasBatch(t, pool, TaskDemand(t, task), r);
    }
  }

  lemma UnreadyRound(t: Setting, pool: seq<Utxo>, all: seq<Withdraw>, r: Ending)
    requires WithdrawalsOutcome(t, pool, all, r) && r == NotSelected(NoneReady)
    ensures forall b :: Unready(all, t.fee, PolicyOf(t), b)
  {
    if band, batch :| BatchOfBand(all, t.fee, PolicyOf(t), t.chain.net, band, batch)
                      && PaidOptimally(t, pool, BatchDemand(batch), r) {
      PaidHasBatch(t, pool, BatchDemand(batch), r);
    }
  }

  lemma HeldBackRows(db: Db, t: Setting, all: seq<Withdraw>, b: Band, id: nat)
    requires Keyed(db) && WaitingRows(db, all) && Unready(all, t.fee, PolicyOf(t), b)
    requires id in WaitingIn(db, t.fee, b)
    ensures HeldBack(t.network, t.now - db.withdraws[id].createdAt, |WaitingIn(db, t.fee, b)|)
  {
    RoundPolicy(t);
    WaitingCount(db, all, t.fee, b);
    UnreadyInNumbers(all, t.fee, PolicyOf(t), b, db.withdraws[id]);
  }

  // Nobody starves: when a round finds no batch ready, every waiting withdrawal that could be paid is in a band of less
  // than 32, has waited less than 20 minutes, and less than 10 in a band of 10 or more, up to the second that ages are
  // compared in.
  lemma NobodyStarves(db: Db, t: Setting, r: Ending, b: Band, id: nat)
    requires Keyed(db) && StartOutcome(db, t, r) && r == NotSelected(NoneReady)
    requires id in WaitingIn(db, t.fee, b)
    ensures HeldBack(t.network, t.now - db.withdraws[id].createdAt, |WaitingIn(db, t.fee, b)|)
  {
    var rows :| SpendableRows(db, rows) && Ascending(AmountDown, rows) && BranchOutcome(db, t, rows, r);
    var all := UnselectedRound(db, t, rows, r);
    UnreadyRound(t, rows, all, r);
    HeldBackRows(db, t, all, b, id);
  }

  lemma UnselectedRound(db: Db, t: Setting, rows: seq<Utxo>, r: Ending) returns (all: seq<Withdraw>)
    requires BranchOutcome(db, t, rows, r) && r.NotSelected?
    ensures WaitingRows(db, all) && WithdrawalsOutcome(t, rows, all, r)
  {
    if |rows| >= CONSOLIDATION_TRIGGER_COUNT && !HasConsolidationInProgress(db) {
      MergeHasNoBatch(t, rows, r);
    } else if exists id :: id in db.tasks && db.tasks[id].status == ReceivedOk {
      var tasks :| ReadyTasks(db, tasks) && SafeboxOutcome(t, rows, tasks, r);
      SafeboxHasNoBatch(t, rows, tasks, r);
    } else {
      all :| WaitingRows(db, all) && WithdrawalsOutcome(t, rows, all, r);
    }
  }

  lemma MergeHasNoBatch(t: Setting, rows: seq<Utxo>, r: Ending)
    requires MergeOutcome(t, rows, r)
    ensures !r.NotSelected?
  {
    if MergeOf(t, rows).Ok? {
      BuiltEnding(t, MergeParams(t, MergeOf(t, rows).value), r);
    }
  }

  lemma DueRows(db: Db, t: Setting, all: seq<Withdraw>, b: Band, batch: Batch)
    requires Keyed(db) && WaitingRows(db, all) && BatchOfBand(all, t.fee, PolicyOf(t), t.chain.net, b, batch)
    ensures exists id :: id in WaitingIn(db, t.fee, b)
                         && Due(t.network, t.now - db.withdraws[id].createdAt, |WaitingIn(db, t.fee, b)|)
  {
    RoundPolicy(t);
    WaitingCount(db, all, t.fee, b);
    ReadyInNumbers(all, t.fee, PolicyOf(t), t.chain.net, b, batch);
    var w := batch.withdrawals[0];
    assert w in batch.withdrawals;
    assert w.requestId in WaitingIn(db, t.fee, b);
  }

  // Nobody is early: a round that picks a batch does so for a band of 32, for one of 10 with a withdrawal older than 10
  // minutes, or for one with a withdrawal older than 20 minutes.
  lemma NobodyIsEarly(db: Db, t: Setting, pool: seq<Utxo>, all: seq<Withdraw>, r: Ending)
    requires Keyed(db) && WaitingRows(db, all) && WithdrawalsOutcome(t, pool, all, r) && !r.NotSelected?
    ensures exists b, id :: id in WaitingIn(db, t.fee, b)
                            && Due(t.network, t.now - db.withdraws[id].createdAt, |WaitingIn(db, t.fee, b)|)
  {
    var b, batch :| BatchOfBand(all, t.fee, PolicyOf(t), t.chain.net, b, batch) && PaidOptimally(t, pool, BatchDemand(batch), r);
    DueRows(db, t, all, b, batch);
  }

  // ---------- Which branch a round takes ----------

  // The coins that can be spent.
  function SpendableIn(db: Db): set<OutPoint> {
    set op | op in db.utxos && db.utxos[op].status in {CoinConfirmed, CoinProcessed}
  }

  lemma SpendableCount(db: Db, rows: seq<Utxo>)
    requires Keyed(db) && SpendableRows(db, rows)
    ensures |rows| == |SpendableIn(db)|
  {
    forall op | op in SpendableIn(db) ensures exists i :: 0 <= i < |rows| && OutPointOf(rows[i]) == op {
      assert db.utxos[op] in rows;
      var i :| 0 <= i < |rows| && rows[i] == db.utxos[op];
    }
    RowsCount(OutPointOf, rows, SpendableIn(db));
  }

  // A round is for withdrawals when there are coins, no safebox task waits, and there are less than 150 coins or an order
  // is in progress already.
  ghost predicate ForWithdrawals(db: Db) {
    && SpendableIn(db) != {} && (forall id :: id in db.tasks ==> db.tasks[id].status != ReceivedOk)
    && (|SpendableIn(db)| < 150 || exists id :: id in db.orders && db.orders[id].status in {Aggregating, Init, Pending})
  }

  ghost predicate SomeoneWaits(db: Db) {
    exists id :: id in db.withdraws && db.withdraws[id].status == Create
  }

  lemma WithdrawalsTurn(db: Db, t: Setting, r: Ending) returns (rows: seq<Utxo>, all: seq<Withdraw>)
    requires Keyed(db) && StartOutcome(db, t, r) && ForWithdrawals(db) && SomeoneWaits(db)
    ensures WaitingRows(db, all) && WithdrawalsOutcome(t, rows, all, r)
  {
    rows :| SpendableRows(db, rows) && Ascending(AmountDown, rows) && BranchOutcome(db, t, rows, r);
    SpendableCount(db, rows);
    all := WithdrawalsBranch(db, t, rows, r);
  }

  lemma WithdrawalsBranch(db: Db, t: Setting, rows: seq<Utxo>, r: Ending) returns (all: seq<Withdraw>)
    requires |rows| == |SpendableIn(db)| && BranchOutcome(db, t, rows, r) && ForWithdrawals(db) && SomeoneWaits(db)
    ensures WaitingRows(db, all) && WithdrawalsOutcome(t, rows, all, r)
  {
    assert rows != [];
    assert !(|rows| >= CONSOLIDATION_TRIGGER_COUNT && !HasConsolidationInProgress(db));
    all :| WaitingRows(db, all) && WithdrawalsOutcome(t, rows, all, r);
  }

  // Such a round ends at once when nobody waits or the fee is too high, and picks a batch only when one is due.
  lemma EndsAtOnce(db: Db, t: Setting, r: Ending)
    requires Keyed(db) && StartOutcome(db, t, r) && ForWithdrawals(db)
    ensures r.NoWithdrawals? <==> !SomeoneWaits(db)
    ensures SomeoneWaits(db) && t.fee.fastest > t.maxNetworkFee <==> r == NotSelected(NetworkFeeTooHigh)
  {
    if SomeoneWaits(db) {
      var rows, all := WithdrawalsTurn(db, t, r);
      WithdrawalsEnding(t, rows, all, r);
    } else {
      NobodyWaits(db, t, r);
    }
  }

  lemma NobodyWaits(db: Db, t: Setting, r: Ending)
    requires Keyed(db) && StartOutcome(db, t, r) && ForWithdrawals(db) && !SomeoneWaits(db)
    ensures r == NoWithdrawals
  {
    var rows :| SpendableRows(db, rows) && Ascending(AmountDown, rows) && BranchOutcome(db, t, rows, r);
    SpendableCount(db, rows);
  }

  lemma StartsInTime(db: Db, t: Setting, r: Ending)
    requires Keyed(db) && StartOutcome(db, t, r) && ForWithdrawals(db) && !r.NotSelected? && !r.NoWithdrawals?
    ensures exists b, id :: id in WaitingIn(db, t.fee, b)
                            && Due(t.network, t.now - db.withdraws[id].createdAt, |WaitingIn(db, t.fee, b)|)
  {
    EndsAtOnce(db, t, r);
    var rows, all := WithdrawalsTurn(db, t, r);
    NobodyIsEarly(db, t, rows, all, r);
  }

  lemma WithdrawalsEnding(t: Setting, pool: seq<Utxo>, all: seq<Withdraw>, r: Ending)
    requires WithdrawalsOutcome(t, pool, all, r)
    ensures !r.NoWithdrawals? && (r == NotSelected(NetworkFeeTooHigh) <==> t.fee.fastest > t.maxNetworkFee)
  {
    if t.fee.fastest <= t.maxNetworkFee && r != NotSelected(NoneReady) {
      var b, batch :| BatchOfBand(all, t.fee, PolicyOf(t), t.chain.net, b, batch) && PaidOptimally(t, pool, BatchDemand(batch), r);
      PaidHasBatch(t, pool, BatchDemand(batch), r);
    }
  }

  // A consolidation merges small coins of the standard single-key types into one output to the change address.
  ghost predicate MergesSmallCoins(db: Db, t: Setting, tx: Tx) {
    && 1 <= |tx.inputs| <= 200 && t.fee.halfHour <= t.maxNetworkFee
    && (forall i :: 0 <= i < |tx.inputs| ==>
          && tx.inputs[i] in SpendableIn(db) && db.utxos[tx.inputs[i]].amount < 50_000_000
          && db.utxos[tx.inputs[i]].receiverType in {P2WPKH, P2WSH, P2PKH})
    && |tx.outputs| == 1 && t.chain.net(t.changeAddress) == Some(tx.outputs[0].script)
    && tx.outputs[0].value > 93 * t.fee.halfHour
  }

  lemma MergeRuns(db: Db, t: Setting, rows: seq<Utxo>, r: Ending)
    requires SpendableRows(db, rows) && MergeOutcome(t, rows, r) && r.Running? && r.tx.inputs != []
    ensures MergesSmallCoins(db, t, r.tx)
  {
    var m := MergeOf(t, rows).value;
    RunningOutputs(t, MergeParams(t, m), r);
    forall i | 0 <= i < |r.tx.inputs|
      ensures && r.tx.inputs[i] in SpendableIn(db) && db.utxos[r.tx.inputs[i]].amount < 50_000_000
              && db.utxos[r.tx.inputs[i]].receiverType in {P2WPKH, P2WSH, P2PKH}
    {
      TakenInNumbers(rows, CONSOLIDATION_THRESHOLD, CONSOLIDATION_MAX_VIN, m.utxos[i]);
    }
    TakenInNumbers(rows, CONSOLIDATION_THRESHOLD, CONSOLIDATION_MAX_VIN, m.utxos[0]);
    assert Ceil(0.0) == 0;
  }

  // At most 200 coins are merged; below that, all small coins are.
  lemma MergedInNumbers(rows: seq<Utxo>, u: Utxo)
    ensures |MergedCoins(rows)| <= 200
    ensures u in rows && u.amount < 50_000_000 && u.receiverType in {P2WPKH, P2WSH, P2PKH} && |MergedCoins(rows)| < 200 ==>
              u in MergedCoins(rows)
  {
    TakenInNumbers(rows, CONSOLIDATION_THRESHOLD, CONSOLIDATION_MAX_VIN, u);
  }

  // It pays their whole amount less the rounded virtual size of the estimate times the half-hour fee.
  lemma MergePays(t: Setting, rows: seq<Utxo>, r: Ending)
    requires MergeOutcome(t, rows, r) && r.Running?
    ensures |r.tx.outputs| == 1
    ensures var sel := MergedCoins(rows);
            r.tx.outputs[0].value == Sum(Amount, sel) - Ceil(VirtualSize([P2WPKH], 1, Types(sel))) * t.fee.halfHour
  {
    RunningOutputs(t, MergeParams(t, MergeOf(t, rows).value), r);
    assert Ceil(0.0) == 0;
  }

  // With 150 spendable coins and no order in progress a round is for consolidation, whatever else waits.
  lemma ConsolidatesFirst(db: Db, t: Setting, r: Ending)
    requires Keyed(db) && StartOutcome(db, t, r) && |SpendableIn(db)| >= 150
    requires forall id :: id in db.orders ==> db.orders[id].status !in {Aggregating, Init, Pending}
    ensures r.NotConsolidated? || r.Hangs? || r.NotBuilt? || r.NotSaved? || r.Running?
    ensures r.Running? && r.tx.inputs != [] ==> MergesSmallCoins(db, t, r.tx)
  {
    var rows :| SpendableRows(db, rows) && Ascending(AmountDown, rows) && BranchOutcome(db, t, rows, r);
    SpendableCount(db, rows);
    if MergeOf(t, rows).Ok? {
      BuiltEnding(t, MergeParams(t, MergeOf(t, rows).value), r);
      if r.Running? && r.tx.inputs != [] {
        MergeRuns(db, t, rows, r);
      }
    }
  }

  // A round is for the safebox task of the earliest deadline when one waits and no consolidation is due.
  lemma SafeboxGoesSecond(db: Db, t: Setting, r: Ending)
    requires Keyed(db) && StartOutcome(db, t, r) && r.Running? && SpendableIn(db) != {}
    requires |SpendableIn(db)| < 150 || exists id :: id in db.orders && db.orders[id].status in {Aggregating, Init, Pending}
    requires exists id :: id in db.tasks && db.tasks[id].status == ReceivedOk
    ensures exists id :: id in db.tasks && db.tasks[id].status == ReceivedOk
              && (forall x :: x in db.tasks && db.tasks[x].status == ReceivedOk ==> db.tasks[id].deadline <= db.tasks[x].deadline)
              && 1 <= |r.tx.outputs| <= 2 && r.tx.outputs[0].value == db.tasks[id].amount
              && t.chain.net(db.tasks[id].timelockAddress) == Some(r.tx.outputs[0].script)
  {
    var rows :| SpendableRows(db, rows) && Ascending(AmountDown, rows) && BranchOutcome(db, t, rows, r);
    SpendableCount(db, rows);
    var tasks :| ReadyTasks(db, tasks) && SafeboxOutcome(t, rows, tasks, r);
    var task := SafeboxPays(t, rows, tasks, r);
    assert task.taskId in db.tasks && db.tasks[task.taskId] == task;
  }
}
