// What a round of the wallet server comes to: from the waiting rows to the transaction and its price.
module RoundTheorems {
  import opened Common
  import opened Models
  import opened Sums
  import opened TxSize
  import opened CoinSelection
  import opened BatchSelection
  import opened TxBuilder
  import opened BuildTheorems
  import opened WalletRows
  import opened Pricing
  import opened WalletServer

  // ---------- No round hangs ----------

  // Size limits that leave room for every batch, and change to P2WPKH.
  predicate Roomy(t: Setting) {
    t.chain.minTxSize <= 60 && t.chain.maxTxSize >= 8241 && PaysP2wpkh(t.chain.net, t.changeAddress)
  }

  // Nothing that waits is to be paid to a script longer than the longest standard one.
  ghost predicate ShortTargets(db: Db, net: Net) {
    && (forall id :: id in db.withdraws ==> ShortScript(net, db.withdraws[id].to))
    && (forall id :: id in db.tasks ==> ShortScript(net, db.tasks[id].timelockAddress))
  }

  // Building within the limits returns, and a running order spends every coin chosen for it.
  lemma SmallEnds(t: Setting, p: Params, r: Ending)
    requires SmallEnough(t.chain, p) && EndsAs(t, p, r)
    ensures !r.Hangs? && (r.Running? ==> r.tx.inputs == OutPoints(p.utxos))
    ensures r.NotBuilt? ==> !r.buildError.TxTooLarge? && !r.buildError.TxPriceTooHigh?
  {
    SmallKeepsInputs(t.chain, p);
    FailuresAreFinal(t.chain, p);
  }

  // Price and size errors are always retried.
  lemma {:induction false} FailuresAreFinal(env: Chain, p: Params)
    ensures var out := RawTransaction(env, p);
            out.Failed? ==> out.error.InvalidUtxo? || out.error.InvalidAddress? || out.error.WithdrawDustAmount?
                            || out.error.ChangeDustAmount?
    decreases |p.utxos|
  {
    var a := Attempt(env, p);
    if a.Err? && a.error.TxPriceTooHigh? {
      PriceRetryEndsInDust(env, p);
    } else if a.Err? && a.error.TxTooLarge? && |p.utxos| > 1 {
      FailuresAreFinal(env, Dropped(p));
    }
  }

  lemma MergeIsSmall(t: Setting, rows: seq<Utxo>)
    requires Roomy(t) && MergeOf(t, rows).Ok? && MergeOf(t, rows).value.witnessSize >= 0
    ensures SmallEnough(t.chain, MergeParams(t, MergeOf(t, rows).value))
  {
    if MergedCoins(rows) == [] {
      NoFreeFee(t.fee.halfHour);
    }
  }

  ghost predicate Drawn(pool: seq<Utxo>, sel: seq<Utxo>) {
    |sel| <= 51 && forall i :: 0 <= i < |sel| ==> sel[i] in pool
  }

  lemma OptimalIsDrawn(pool: seq<Utxo>, sel: seq<Utxo>, required: int, price: int)
    requires Optimal(pool, sel, required, price)
    ensures Drawn(pool, sel)
  {
    var core, sweep :| sel == core + sweep && OptimalCore(pool, core, required) && IsSweep(pool, core, sweep, price);
    forall u | u in core ensures u in pool {
      assert u in multiset(core) && u in multiset(pool);
    }
  }

  // A selection that a demand was paid from.
  ghost predicate DemandChoice(t: Setting, pool: seq<Utxo>, d: Demand, s: Selection, r: Ending) {
    && s.withdrawAmount == d.amount && s.witnessSize >= 0
    && Drawn(pool, s.utxos) && Sum(Amount, s.utxos) >= d.amount + d.external
    && PricedBy(s, d.receiverTypes, d.price, d.outputs) && EndsAs(t, ParamsFor(t, d.ws, d.tasks, s, d.price), r)
  }

  lemma HasPrices(t: Setting, sel: seq<Utxo>, d: Demand, r: Ending) returns (s: Selection)
    requires PaidFrom(t, sel, d, r) && !r.NotFunded?
    ensures s.utxos == sel && s.withdrawAmount == d.amount && s.witnessSize >= 0 && Sum(Amount, sel) >= d.amount + d.external
    ensures PricedBy(s, d.receiverTypes, d.price, d.outputs) && EndsAs(t, ParamsFor(t, d.ws, d.tasks, s, d.price), r)
  {
    s :| && s.utxos == sel && s.withdrawAmount == d.amount && s.witnessSize >= 0
         && PricedBy(s, d.receiverTypes, d.price, d.outputs) && EndsAs(t, ParamsFor(t, d.ws, d.tasks, s, d.price), r);
  }

  lemma HasCoins(t: Setting, pool: seq<Utxo>, d: Demand, r: Ending) returns (sel: seq<Utxo>)
    requires PaidOptimally(t, pool, d, r)
    ensures PaidFrom(t, sel, d, r) && Drawn(pool, sel)
  {
    sel :| Optimal(pool, sel, d.amount + d.external, d.price) && PaidFrom(t, sel, d, r);
    OptimalIsDrawn(pool, sel, d.amount + d.external, d.price);
  }

  lemma HasSelection(t: Setting, pool: seq<Utxo>, d: Demand, r: Ending) returns (s: Selection)
    requires PaidOptimally(t, pool, d, r) && !r.NotFunded?
    ensures DemandChoice(t, pool, d, s, r)
  {
    var sel := HasCoins(t, pool, d, r);
    s := HasPrices(t, sel, d, r);
  }

  ghost predicate SmallDemand(net: Net, d: Demand) {
    && d.amount + d.external > 0 && 1 <= |d.ws| + |d.tasks| <= 32
    && ShortReceivers(net, d.ws) && ShortTimelocks(net, d.tasks)
  }

  lemma DemandEnds(t: Setting, pool: seq<Utxo>, d: Demand, r: Ending)
    requires Roomy(t) && PaidOptimally(t, pool, d, r) && SmallDemand(t.chain.net, d)
    ensures !r.Hangs?
  {
    if !r.NotFunded? {
      var s := HasSelection(t, pool, d, r);
      CoveringIsNonempty(s.utxos, d.amount + d.external);
      SmallEnds(t, ParamsFor(t, d.ws, d.tasks, s, d.price), r);
    }
  }

  lemma BatchIsPositive(t: Setting, all: seq<Withdraw>, band: Band, batch: Batch)
    requires BatchOfBand(all, t.fee, PolicyOf(t), t.chain.net, band, batch)
    ensures batch.amount > 0 && 1 <= |batch.withdrawals| <= 32
  {
    BatchMembersPay(all, t.fee, band, WITHDRAW_MAX_VOUT, batch.withdrawals, 0);
    BatchAmount(batch.withdrawals, batch.price);
  }

  lemma HasBatch(t: Setting, pool: seq<Utxo>, all: seq<Withdraw>, r: Ending) returns (band: Band, batch: Batch, d: Demand)
    requires WithdrawalsOutcome(t, pool, all, r) && !r.NotSelected?
    ensures BatchOfBand(all, t.fee, PolicyOf(t), t.chain.net, band, batch)
    ensures d == BatchDemand(batch) && PaidOptimally(t, pool, d, r)
  {
    band, batch :| BatchOfBand(all, t.fee, PolicyOf(t), t.chain.net, band, batch)
                   && PaidOptimally(t, pool, BatchDemand(batch), r);
    d := BatchDemand(batch);
  }

  lemma BatchIsSmall(t: Setting, all: seq<Withdraw>, band: Band, batch: Batch)
    requires BatchOfBand(all, t.fee, PolicyOf(t), t.chain.net, band, batch) && ShortReceivers(t.chain.net, all)
    ensures SmallDemand(t.chain.net, BatchDemand(batch))
  {
    BatchIsPositive(t, all, band, batch);
    BatchMembersIn(all, t.fee, band, WITHDRAW_MAX_VOUT, batch.withdrawals);
  }

  lemma WithdrawalsDemand(t: Setting, pool: seq<Utxo>, all: seq<Withdraw>, r: Ending) returns (d: Demand)
    requires WithdrawalsOutcome(t, pool, all, r) && !r.NotSelected? && ShortReceivers(t.chain.net, all)
    ensures PaidOptimally(t, pool, d, r) && SmallDemand(t.chain.net, d)
  {
    var band, batch;
    band, batch, d := HasBatch(t, pool, all, r);
    BatchIsSmall(t, all, band, batch);
  }

  lemma WithdrawalsEnd(t: Setting, pool: seq<Utxo>, all: seq<Withdraw>, r: Ending)
    requires Roomy(t) && WithdrawalsOutcome(t, pool, all, r) && ShortReceivers(t.chain.net, all)
    ensures !r.Hangs?
  {
    if !r.NotSelected? {
      var d := WithdrawalsDemand(t, pool, all, r);
      DemandEnds(t, pool, d, r);
    }
  }

  lemma TaskIsSmall(t: Setting, task: Task)
    requires ShortScript(t.chain.net, task.timelockAddress)
    ensures SmallDemand(t.chain.net, TaskDemand(t, task))
  {
  }

  lemma HasDemand(t: Setting, pool: seq<Utxo>, tasks: seq<Task>, r: Ending) returns (d: Demand)
    requires SafeboxOutcome(t, pool, tasks, r) && t.fee.halfHour <= t.maxNetworkFee && ShortTimelocks(t.chain.net, tasks)
    ensures PaidOptimally(t, pool, d, r) && SmallDemand(t.chain.net, d)
  {
    var task :| task in tasks && (forall x :: x in tasks ==> task.deadline <= x.deadline)
                && PaidOptimally(t, pool, TaskDemand(t, task), r);
    d := TaskDemand(t, task);
    TaskIsSmall(t, task);
  }

  lemma SafeboxEnds(t: Setting, pool: seq<Utxo>, tasks: seq<Task>, r: Ending)
    requires Roomy(t) && SafeboxOutcome(t, pool, tasks, r) && ShortTimelocks(t.chain.net, tasks)
    ensures !r.Hangs?
  {
    if t.fee.halfHour <= t.maxNetworkFee {
      var d := HasDemand(t, pool, tasks, r);
      DemandEnds(t, pool, d, r);
    }
  }

  lemma MergeEnds(t: Setting, rows: seq<Utxo>, r: Ending)
    requires Roomy(t) && MergeOutcome(t, rows, r)
    ensures !r.Hangs?
  {
    if MergeOf(t, rows).Ok? {
      MergeIsSmall(t, rows);
      SmallEnds(t, MergeParams(t, MergeOf(t, rows).value), r);
    }
  }

  lemma ReadyAreShort(db: Db, net: Net, tasks: seq<Task>)
    requires ShortTargets(db, net) && ReadyTasks(db, tasks)
    ensures ShortTimelocks(net, tasks)
  {
    assert forall i :: 0 <= i < |tasks| ==> tasks[i] in tasks;
  }

  lemma WaitingAreShort(db: Db, net: Net, all: seq<Withdraw>)
    requires ShortTargets(db, net) && WaitingRows(db, all)
    ensures ShortReceivers(net, all)
  {
    assert forall i :: 0 <= i < |all| ==> all[i] in all;
  }

  lemma BranchEnds(db: Db, t: Setting, rows: seq<Utxo>, r: Ending)
    requires Roomy(t) && ShortTargets(db, t.chain.net) && BranchOutcome(db, t, rows, r)
    ensures !r.Hangs?
  {
    if rows == [] {
    } else if |rows| >= CONSOLIDATION_TRIGGER_COUNT && !HasConsolidationInProgress(db) {
      MergeEnds(t, rows, r);
    } else if exists id :: id in db.tasks && db.tasks[id].status == ReceivedOk {
      var tasks :| ReadyTasks(db, tasks) && SafeboxOutcome(t, rows, tasks, r);
      ReadyAreShort(db, t.chain.net, tasks);
      SafeboxEnds(t, rows, tasks, r);
    } else if exists id :: id in db.withdraws && db.withdraws[id].status == Create {
      var all :| WaitingRows(db, all) && WithdrawalsOutcome(t, rows, all, r);
      WaitingAreShort(db, t.chain.net, all);
      WithdrawalsEnd(t, rows, all, r);
    }
  }

  // With roomy limits every round over short scripts ends, whatever else the tables hold.
  lemma RoundNeverHangs(db: Db, t: Setting, r: Ending)
    requires Roomy(t) && ShortTargets(db, t.chain.net) && StartOutcome(db, t, r)
    ensures !r.Hangs?
  {
    var rows :| SpendableRows(db, rows) && Ascending(AmountDown, rows) && BranchOutcome(db, t, rows, r);
    BranchEnds(db, t, rows, r);
  }

  // ---------- What a running order pays ----------

  lemma RunningOutputs(t: Setting, p: Params, r: Ending)
    requires EndsAs(t, p, r) && r.Running?
    ensures PaysInOrder(t.chain.net, p, r.tx.outputs) && ThenChange(t.chain.net, p, r.tx.outputs)
    ensures |r.tx.inputs| <= |p.utxos| && forall i :: 0 <= i < |r.tx.inputs| ==> r.tx.inputs[i] == p.utxos[i].outPoint
  {
    OutputPositions(t.chain, p);
    InputPositions(t.chain, p);
  }

  // The outputs pay withdrawals and tasks in turn, the withdrawals each the same share less; a last output, if there is
  // one, is the change.
  ghost predicate PaysDemand(t: Setting, d: Demand, share: int, outs: seq<TxOut>) {
    var n, m := |d.ws|, |d.tasks|;
    && n + m <= |outs| <= n + m + 1
    && (forall i :: 0 <= i < n ==>
          t.chain.net(d.ws[i].to) == Some(outs[i].script) && outs[i].value == d.ws[i].amount - share > 93 * d.price)
    && (forall j :: 0 <= j < m ==>
          t.chain.net(d.tasks[j].timelockAddress) == Some(outs[n + j].script) && outs[n + j].value == d.tasks[j].amount)
    && (|outs| > n + m ==> t.chain.net(t.changeAddress) == Some(outs[n + m].script) && outs[n + m].value > 93 * d.price)
  }

  lemma ParamsPay(t: Setting, d: Demand, p: Params, outs: seq<TxOut>) returns (share: int)
    requires p.withdrawals == d.ws && p.tasks == d.tasks && p.networkFee == d.price && p.changeAddress == t.changeAddress
    requires PaysInOrder(t.chain.net, p, outs) && ThenChange(t.chain.net, p, outs)
    ensures PaysDemand(t, d, share, outs)
  {
    share := if d.ws == [] then 0 else Ceil(p.estimatedFee / |d.ws| as real);
  }

  // What a running demand pays, and that it spends coins of the pool.
  lemma DemandPays(t: Setting, pool: seq<Utxo>, d: Demand, r: Ending) returns (share: int)
    requires PaidOptimally(t, pool, d, r) && r.Running?
    ensures PaysDemand(t, d, share, r.tx.outputs)
    ensures forall i :: 0 <= i < |r.tx.inputs| ==> exists u :: u in pool && r.tx.inputs[i] == u.outPoint
  {
    var s := HasSelection(t, pool, d, r);
    share := ChoicePays(t, pool, d, s, r);
  }

  lemma ChoicePays(t: Setting, pool: seq<Utxo>, d: Demand, s: Selection, r: Ending) returns (share: int)
    requires DemandChoice(t, pool, d, s, r) && r.Running?
    ensures PaysDemand(t, d, share, r.tx.outputs)
    ensures forall i :: 0 <= i < |r.tx.inputs| ==> exists u :: u in pool && r.tx.inputs[i] == u.outPoint
  {
    var p := ParamsFor(t, d.ws, d.tasks, s, d.price);
    RunningOutputs(t, p, r);
    share := ParamsPay(t, d, p, r.tx.outputs);
    forall i | 0 <= i < |r.tx.inputs| ensures exists u :: u in pool && r.tx.inputs[i] == u.outPoint {
      assert s.utxos[i] in pool;
    }
  }

  lemma EarliestDemand(t: Setting, pool: seq<Utxo>, tasks: seq<Task>, r: Ending) returns (task: Task, d: Demand)
    requires SafeboxOutcome(t, pool, tasks, r) && r.Running?
    ensures t.fee.halfHour <= t.maxNetworkFee && task in tasks && forall x :: x in tasks ==> task.deadline <= x.deadline
    ensures PaidOptimally(t, pool, d, r) && d.ws == [] && d.tasks == [task] && d.price == t.fee.halfHour
    ensures d.amount == task.amount && d.external == 100_000 && d.outputs == 1
    ensures d.receiverTypes == [GetAddressType(t.chain.net, task.timelockAddress)]
  {
    task :| task in tasks && (forall x :: x in tasks ==> task.deadline <= x.deadline)
            && PaidOptimally(t, pool, TaskDemand(t, task), r);
    d := TaskDemand(t, task);
  }

  // A safebox round needs coins for the task's amount and 100000 on top, and is short exactly without them.
  lemma SafeboxFunds(t: Setting, pool: seq<Utxo>, tasks: seq<Task>, r: Ending) returns (task: Task, sel: seq<Utxo>)
    requires SafeboxOutcome(t, pool, tasks, r) && t.fee.halfHour <= t.maxNetworkFee
    ensures task in tasks && forall x :: x in tasks ==> task.deadline <= x.deadline
    ensures forall i :: 0 <= i < |sel| ==> sel[i] in pool
    ensures r.NotFunded? <==> Sum(Amount, sel) < task.amount + 100_000
    ensures r.NotFunded? ==> r.shortage.selectedAmount == Sum(Amount, sel)
  {
    task :| task in tasks && (forall x :: x in tasks ==> task.deadline <= x.deadline)
            && PaidOptimally(t, pool, TaskDemand(t, task), r);
    var d := TaskDemand(t, task);
    sel := HasFunds(t, pool, d, r);
  }

  // A round of withdrawals needs coins for exactly what its members are to be paid, fee included.
  lemma WithdrawalFunds(t: Setting, pool: seq<Utxo>, all: seq<Withdraw>, r: Ending) returns (ws: seq<Withdraw>, sel: seq<Utxo>)
    requires WithdrawalsOutcome(t, pool, all, r) && !r.NotSelected?
    ensures ws != [] && (forall w :: w in ws ==> w in all) && forall i :: 0 <= i < |sel| ==> sel[i] in pool
    ensures r.NotFunded? <==> Sum(Amount, sel) < Sum(WithdrawAmount, ws)
    ensures r.NotFunded? ==> r.shortage.selectedAmount == Sum(Amount, sel)
  {
    var band, batch, d := HasBatch(t, pool, all, r);
    BatchMembersIn(all, t.fee, band, WITHDRAW_MAX_VOUT, batch.withdrawals);
    ws := batch.withdrawals;
    sel := HasFunds(t, pool, d, r);
  }

  lemma HasFunds(t: Setting, pool: seq<Utxo>, d: Demand, r: Ending) returns (sel: seq<Utxo>)
    requires PaidOptimally(t, pool, d, r)
    ensures forall i :: 0 <= i < |sel| ==> sel[i] in pool
    ensures r.NotFunded? <==> Sum(Amount, sel) < d.amount + d.external
    ensures r.NotFunded? ==> r.shortage.selectedAmount == Sum(Amount, sel)
  {
    sel := HasCoins(t, pool, d, r);
    if Sum(Amount, sel) >= d.amount + d.external {
      FundedEnding(t, sel, d, r);
    }
  }

  lemma FundedEnding(t: Setting, sel: seq<Utxo>, d: Demand, r: Ending)
    requires PaidFrom(t, sel, d, r) && Sum(Amount, sel) >= d.amount + d.external
    ensures !r.NotFunded?
  {
  }

  // A running safebox order pays the task of the earliest deadline first, exactly its amount to its timelock address.  At
  // most the change follows.
  lemma SafeboxPays(t: Setting, pool: seq<Utxo>, tasks: seq<Task>, r: Ending) returns (task: Task)
    requires SafeboxOutcome(t, pool, tasks, r) && r.Running?
    ensures task in tasks && forall x :: x in tasks ==> task.deadline <= x.deadline
    ensures var outs := r.tx.outputs;
            && 1 <= |outs| <= 2
            && t.chain.net(task.timelockAddress) == Some(outs[0].script) && outs[0].value == task.amount
            && (|outs| == 2 ==> t.chain.net(t.changeAddress) == Some(outs[1].script) && outs[1].value > 93 * t.fee.halfHour)
    ensures t.fee.halfHour <= t.maxNetworkFee
  {
    var d;
    task, d := EarliestDemand(t, pool, tasks, r);
    var share := DemandPays(t, pool, d, r);
    assert d.tasks[0] == task;
  }

  lemma FeeNonNegative(sel: seq<Utxo>, receivers: seq<WalletType>, outputs: int, price: nat)
    ensures FeeFor(sel, receivers, outputs, price) >= 0.0
  {
    SumNonNegative(InputBase, Types(sel));
    SumNonNegative(InputWitness, Types(sel));
    SumNonNegative(OutputBase, receivers);
    assert VirtualSize(receivers, outputs, Types(sel)) >= 0.0;
  }

  // What is left of the change when it pays the fee, if anything is left.
  lemma ChangeLeft(s: Selection, receivers: seq<WalletType>, price: nat, outputs: nat)
    requires PricedBy(s, receivers, price, outputs) && s.total >= s.withdrawAmount
    requires s.changeAmount > Ceil(s.estimatedFee)
    ensures s.changeAmount == s.total - s.withdrawAmount && s.estimatedFee == FeeFor(s.utxos, receivers, outputs + 1, price)
  {
    FeeNonNegative(s.utxos, receivers, outputs, price);
    CeilBounds(s.estimatedFee);
  }

  // The selection behind a running safebox order of the earliest task.
  lemma SafeboxSelection(t: Setting, pool: seq<Utxo>, tasks: seq<Task>, r: Ending)
    returns (task: Task, s: Selection, receiver: WalletType, p: Params)
    requires SafeboxOutcome(t, pool, tasks, r) && r.Running?
    ensures task in tasks && receiver == GetAddressType(t.chain.net, task.timelockAddress)
    ensures Drawn(pool, s.utxos) && s.withdrawAmount == task.amount && s.total == Sum(Amount, s.utxos) >= s.withdrawAmount
    ensures PricedBy(s, [receiver], t.fee.halfHour, 1)
    ensures p.withdrawals == [] && p.tasks == [task] && p.changeAmount == s.changeAmount && p.estimatedFee == s.estimatedFee
    ensures EndsAs(t, p, r)
  {
    var d;
    task, d := EarliestDemand(t, pool, tasks, r);
    s := HasSelection(t, pool, d, r);
    receiver := d.receiverTypes[0];
    p := ParamsFor(t, d.ws, d.tasks, s, d.price);
  }

  // The change of a safebox order is what its coins exceed the task's amount by, less the estimated fee of a transaction
  // with two outputs, rounded up.
  lemma SafeboxChange(t: Setting, pool: seq<Utxo>, tasks: seq<Task>, r: Ending)
    returns (task: Task, sel: seq<Utxo>, receiver: WalletType, fee: real)
    requires SafeboxOutcome(t, pool, tasks, r) && r.Running? && |r.tx.outputs| == 2
    ensures task in tasks && (forall i :: 0 <= i < |sel| ==> sel[i] in pool)
    ensures t.chain.net(task.timelockAddress).Some? && receiver == t.chain.net(task.timelockAddress).value.kind
    ensures fee == FeeFor(sel, [receiver], 2, t.fee.halfHour)
    ensures r.tx.outputs[1].value == Sum(Amount, sel) - task.amount - Ceil(fee)
  {
    var s, p;
    task, s, receiver, p := SafeboxSelection(t, pool, tasks, r);
    sel := s.utxos;
    RunningChange(t, p, task, r);
    fee := FeeOfTwo(s, receiver, t.fee.halfHour);
  }

  lemma FeeOfTwo(s: Selection, receiver: WalletType, price: nat) returns (fee: real)
    requires PricedBy(s, [receiver], price, 1) && s.total >= s.withdrawAmount
    requires s.changeAmount > Ceil(s.estimatedFee)
    ensures fee == s.estimatedFee && fee == FeeFor(s.utxos, [receiver], 2, price)
    ensures s.changeAmount == s.total - s.withdrawAmount
  {
    fee := s.estimatedFee;
    ChangeLeft(s, [receiver], price, 1);
  }

  lemma RunningChange(t: Setting, p: Params, task: Task, r: Ending)
    requires p.withdrawals == [] && p.tasks == [task] && EndsAs(t, p, r) && r.Running? && |r.tx.outputs| == 2
    ensures t.chain.net(task.timelockAddress).Some? && r.tx.outputs[1].value == p.changeAmount - Ceil(p.estimatedFee) > 0
  {
    RunningOutputs(t, p, r);
    OneTaskChange(t.chain.net, p, task, r.tx.outputs);
  }

  lemma OneTaskChange(net: Net, p: Params, task: Task, outs: seq<TxOut>)
    requires p.withdrawals == [] && p.tasks == [task] && PaysInOrder(net, p, outs) && ThenChange(net, p, outs) && |outs| == 2
    ensures net(task.timelockAddress).Some? && outs[1].value == p.changeAmount - Ceil(p.estimatedFee) > 0
  {
    assert net(p.tasks[0].timelockAddress) == Some(outs[0 + 0].script);
  }

  // ---------- A round of withdrawals ----------

  // All coins and addresses are of the standard kinds.
  ghost predicate StandardWorld(t: Setting, pool: seq<Utxo>, all: seq<Withdraw>) {
    && Roomy(t) && StandardInputs(pool) && ValidIds(t.chain, pool)
    && forall w :: w in all ==> t.chain.net(w.to).Some? && Standard(t.chain.net(w.to).value)
  }

  lemma BatchMembersIn(all: seq<Withdraw>, fee: NetworkFee, b: Band, maxVout: nat, sel: seq<Withdraw>)
    requires IsBatch(all, fee, b, maxVout, sel)
    ensures forall i :: 0 <= i < |sel| ==> sel[i] in all
  {
    forall i | 0 <= i < |sel| ensures sel[i] in all {
      BatchMembersPay(all, fee, b, maxVout, sel, i);
    }
  }

  // The builder's parameters for a batch and a selection.
  function RoundParams(t: Setting, batch: Batch, s: Selection): Params
    requires s.witnessSize >= 0
  {
    ParamsFor(t, batch.withdrawals, [], s, batch.price)
  }

  // A batch and a selection that a round may pick.
  ghost predicate Picked(t: Setting, pool: seq<Utxo>, all: seq<Withdraw>, band: Band, batch: Batch, s: Selection) {
    && BatchOfBand(all, t.fee, PolicyOf(t), t.chain.net, band, batch)
    && s.withdrawAmount == batch.amount && s.witnessSize >= 0
    && Drawn(pool, s.utxos) && Sum(Amount, s.utxos) >= batch.amount
    && PricedBy(s, batch.receiverTypes, batch.price, |batch.withdrawals|)
  }

  // The batch and the selection of a round that got as far as building.
  ghost predicate RoundChoice(t: Setting, pool: seq<Utxo>, all: seq<Withdraw>, band: Band, batch: Batch, s: Selection,
                              r: Ending)
  {
    Picked(t, pool, all, band, batch, s) && EndsAs(t, RoundParams(t, batch, s), r)
  }

  lemma DemandIsChoice(t: Setting, pool: seq<Utxo>, all: seq<Withdraw>, band: Band, batch: Batch, s: Selection, r: Ending)
    requires BatchOfBand(all, t.fee, PolicyOf(t), t.chain.net, band, batch)
    requires DemandChoice(t, pool, BatchDemand(batch), s, r)
    ensures RoundChoice(t, pool, all, band, batch, s, r)
  {
    assert RoundParams(t, batch, s) == ParamsFor(t, BatchDemand(batch).ws, BatchDemand(batch).tasks, s, BatchDemand(batch).price);
  }

  lemma HasChoice(t: Setting, pool: seq<Utxo>, all: seq<Withdraw>, r: Ending)
    returns (band: Band, batch: Batch, s: Selection)
    requires WithdrawalsOutcome(t, pool, all, r) && !r.NotSelected? && !r.NotFunded?
    ensures RoundChoice(t, pool, all, band, batch, s, r)
  {
    var d;
    band, batch, d := HasBatch(t, pool, all, r);
    s := HasSelection(t, pool, d, r);
    DemandIsChoice(t, pool, all, band, batch, s, r);
  }

  lemma ChoiceIsSmall(t: Setting, pool: seq<Utxo>, all: seq<Withdraw>, band: Band, batch: Batch, s: Selection)
    requires StandardWorld(t, pool, all) && Picked(t, pool, all, band, batch, s)
    ensures SmallEnough(t.chain, RoundParams(t, batch, s))
  {
    BatchIsPositive(t, all, band, batch);
    BatchMembersIn(all, t.fee, band, WITHDRAW_MAX_VOUT, batch.withdrawals);
    CoveringIsNonempty(s.utxos, batch.amount);
  }

  lemma ChoiceIsStandard(t: Setting, pool: seq<Utxo>, all: seq<Withdraw>, band: Band, batch: Batch, s: Selection)
    requires StandardWorld(t, pool, all) && Picked(t, pool, all, band, batch, s)
    ensures StandardReceivers(t.chain.net, batch.withdrawals, t.changeAddress)
    ensures StandardInputs(s.utxos) && ValidIds(t.chain, s.utxos)
    ensures batch.receiverTypes == ReceiverTypes(t.chain.net, batch.withdrawals)
  {
    BatchMembersIn(all, t.fee, band, WITHDRAW_MAX_VOUT, batch.withdrawals);
  }

  lemma ChoiceIsChosen(t: Setting, pool: seq<Utxo>, all: seq<Withdraw>, band: Band, batch: Batch, s: Selection)
    requires StandardWorld(t, pool, all) && Picked(t, pool, all, band, batch, s)
    ensures var p := RoundParams(t, batch, s);
            Chosen(t.chain, p, batch, s) && ValidIds(t.chain, p.utxos) && SmallEnough(t.chain, p)
  {
    BatchIsPositive(t, all, band, batch);
    ChoiceIsSmall(t, pool, all, band, batch, s);
    ChoiceIsStandard(t, pool, all, band, batch, s);
  }

  // What a round of withdrawals comes to once batch and coins are chosen: the transaction on all these coins when
  // the batch is affordable, and the dust error when it is not.
  lemma WithdrawalRoundIff(t: Setting, pool: seq<Utxo>, all: seq<Withdraw>, band: Band, batch: Batch, s: Selection,
                           r: Ending)
    requires StandardWorld(t, pool, all) && RoundChoice(t, pool, all, band, batch, s, r)
    ensures var p := RoundParams(t, batch, s);
            if Affordable(p, batch, s)
            then r.NotSaved? || (r.Running? && Outputs(t.chain.net, p).Ok? && r.tx == BuiltTx(t.chain, p))
            else r.NotBuilt? && r.buildError.WithdrawDustAmount?
  {
    ChoiceIsChosen(t, pool, all, band, batch, s);
    BuildIff(t.chain, RoundParams(t, batch, s), batch, s);
  }

  // Inputs equal outputs plus the fee share of every output plus the leftover without change output.
  ghost predicate Conserves(batch: Batch, s: Selection, tx: Tx, share: int) {
    var n := |batch.withdrawals|;
    && tx.inputs == OutPoints(s.utxos)
    && Sum(Amount, s.utxos) == Sum(Value, tx.outputs) + n * share + (s.total - s.withdrawAmount - s.changeAmount)
    && s.estimatedFee <= (n * share) as real < s.estimatedFee + n as real
  }

  lemma RunningConserves(t: Setting, pool: seq<Utxo>, all: seq<Withdraw>, band: Band, batch: Batch, s: Selection,
                         r: Ending)
    requires StandardWorld(t, pool, all) && RoundChoice(t, pool, all, band, batch, s, r) && r.Running?
    ensures exists share :: Conserves(batch, s, r.tx, share)
  {
    var p := RoundParams(t, batch, s);
    ChoiceIsChosen(t, pool, all, band, batch, s);
    SmallKeepsInputs(t.chain, p);
    OutputsSum(t.chain.net, p);
    SharedFeeBounds(p);
    assert Conserves(batch, s, r.tx, CalculateFees(p).0);
  }

  lemma RunningPrice(t: Setting, pool: seq<Utxo>, all: seq<Withdraw>, band: Band, batch: Batch, s: Selection,
                     r: Ending)
    requires StandardWorld(t, pool, all) && RoundChoice(t, pool, all, band, batch, s, r) && r.Running?
    ensures var p := RoundParams(t, batch, s);
            && (forall i :: 0 <= i < |batch.withdrawals| ==> EffectivePrice(p, r.tx) <= batch.withdrawals[i].txPrice as real)
            && (s.changeAmount > 0 && WitnessInputs(s.utxos) ==> EffectivePrice(p, r.tx) == batch.price as real)
  {
    var p := RoundParams(t, batch, s);
    ChoiceIsChosen(t, pool, all, band, batch, s);
    SmallKeepsInputs(t.chain, p);
    forall i | 0 <= i < |batch.withdrawals| ensures EffectivePrice(p, r.tx) <= batch.withdrawals[i].txPrice as real {
      ReturnedPrice(t.chain, p, i);
    }
    if s.changeAmount > 0 && WitnessInputs(s.utxos) {
      PriceWithChange(t.chain, p, batch, s);
    }
  }

  // A round of withdrawals over standard coins and addresses ends without a batch or without funds, or it has
  // chosen a batch and coins.  Then it runs, unless its order id is taken, exactly when the batch is affordable: on
  // all chosen coins, conserving amounts, at a price every member accepts.  Otherwise it ends in the dust error.
  // With change and witness inputs alone, a running round pays exactly the band's fee, and affordable means that
  // no member becomes dust.
  lemma WithdrawalRound(t: Setting, pool: seq<Utxo>, all: seq<Withdraw>, r: Ending)
    returns (band: Band, batch: Batch, s: Selection)
    requires StandardWorld(t, pool, all) && WithdrawalsOutcome(t, pool, all, r)
    requires !r.NotSelected? && !r.NotFunded?
    ensures RoundChoice(t, pool, all, band, batch, s, r)
    ensures var p := RoundParams(t, batch, s);
            && (Affordable(p, batch, s) <==> r.NotSaved? || r.Running?)
            && (!Affordable(p, batch, s) <==> r.NotBuilt? && r.buildError.WithdrawDustAmount?)
            && (r.Running? ==>
                  && (exists share :: Conserves(batch, s, r.tx, share))
                  && forall i :: 0 <= i < |batch.withdrawals| ==>
                       EffectivePrice(p, r.tx) <= batch.withdrawals[i].txPrice as real)
            && (s.changeAmount > 0 && WitnessInputs(s.utxos) ==>
                  && (Affordable(p, batch, s) <==> AllAboveDust(p))
                  && (r.Running? ==> EffectivePrice(p, r.tx) == batch.price as real))
  {
    band, batch, s := HasChoice(t, pool, all, r);
    WithdrawalRoundIff(t, pool, all, band, batch, s, r);
    if r.Running? {
      RunningConserves(t, pool, all, band, batch, s, r);
      RunningPrice(t, pool, all, band, batch, s, r);
    }
    if s.changeAmount > 0 && WitnessInputs(s.utxos) {
      ChoiceIsChosen(t, pool, all, band, batch, s);
      NobodyRefuses(t.chain, RoundParams(t, batch, s), batch, s, all, t.fee, PolicyOf(t), band);
    }
  }
}
