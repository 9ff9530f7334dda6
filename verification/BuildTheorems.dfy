// What the transaction builder guarantees about retries, amounts and sizes.
module BuildTheorems {
  import opened Common
  import opened Models
  import opened Sums
  import opened TxSize
  import opened BatchSelection
  import opened TxBuilder
  import CoinSelection

  // ---------- Price retries ----------

  ghost predicate SameScripts(a: seq<TxOut>, b: seq<TxOut>) {
    |a| == |b| && forall i :: 0 <= i < |a| ==> a[i].script == b[i].script
  }

  lemma {:induction false} SameScriptsSameSize(a: seq<TxOut>, b: seq<TxOut>)
    requires SameScripts(a, b)
    ensures Sum(OutputSize, a) == Sum(OutputSize, b)
  {
    if a != [] {
      SameScriptsSameSize(a[..|a| - 1], b[..|b| - 1]);
    }
  }

  // Once the outputs can be built at one fee, another fee can only make one of them dust.
  lemma {:induction false} OutputsOrDust(net: Net, ws: seq<Withdraw>, fee: int, fee': int, dust: int)
    requires WithdrawOutputs(net, ws, fee, dust).Ok?
    ensures var r, r' := WithdrawOutputs(net, ws, fee, dust), WithdrawOutputs(net, ws, fee', dust);
            if r'.Ok? then SameScripts(r.value, r'.value) else r'.error.WithdrawDustAmount?
  {
    if ws != [] {
      OutputsOrDust(net, ws[..|ws| - 1], fee, fee', dust);
    }
  }

  lemma RaisedPrice(p: Params, tx: Tx, tx': Tx)
    requires SerializeSizeNoWitness(tx) == SerializeSizeNoWitness(tx')
    requires Refuses(p.withdrawals, EffectivePrice(p, tx)).Some?
    ensures Refuses(p.withdrawals, EffectivePrice(Raised(p), tx')).Some?
  {
    PositivePrice(p, tx);
    SizePositive(tx);
    var b := SerializeSizeNoWitness(tx) as real + p.witnessSize as real / 4.0;
    RaisedQuotient(p.estimatedFee, b);
  }

  lemma RaisedQuotient(e: real, b: real)
    requires e > 0.0 && b > 0.0
    ensures e * 1.1 / b > e / b
  {
    var x, y := e / b, e * 1.1 / b;
    assert x * b == e && y * b == e * 1.1;
    if y <= x {
      MulMonotone(y, x, b);
    }
  }

  lemma RaisedAttempt(env: Chain, p: Params)
    requires Attempt(env, p).Err? && Attempt(env, p).error.TxPriceTooHigh?
    ensures var r := Attempt(env, Raised(p));
            r.Err? && (r.error.TxPriceTooHigh? || r.error.WithdrawDustAmount?)
  {
    PriceErrorBound(env, p);
    var q := Raised(p);
    OutputsOrDust(env.net, p.withdrawals, CalculateFees(p).0, CalculateFees(q).0, GetDustAmount(p.networkFee));
    var outs, outs' := Outputs(env.net, p), Outputs(env.net, q);
    if outs'.Ok? {
      SameScriptsSameSize(outs.value, outs'.value);
      RaisedPrice(p, Tx(OutPoints(p.utxos), outs.value), Tx(OutPoints(q.utxos), outs'.value));
    }
  }

  // A retry raises the fee by a tenth, or drops the last input, and changes nothing else.
  lemma RetriesInNumbers(p: Params)
    ensures 10.0 * Raised(p).estimatedFee == 11.0 * p.estimatedFee && Raised(p) == p.(estimatedFee := Raised(p).estimatedFee)
    ensures p.utxos != [] ==> p.utxos == Dropped(p).utxos + [p.utxos[|p.utxos| - 1]] && Dropped(p) == p.(utxos := Dropped(p).utxos)
  {
  }

  // A started price retry always ends in the dust error.
  lemma {:induction false} PriceRetryEndsInDust(env: Chain, p: Params)
    requires Attempt(env, p).Err? && Attempt(env, p).error.TxPriceTooHigh?
    ensures RawTransaction(env, p).Failed? && RawTransaction(env, p).error.WithdrawDustAmount?
    decreases Fuel(p)
  {
    PriceErrorBound(env, p);
    RaiseDropsFuel(p);
    RaisedAttempt(env, p);
    if Attempt(env, Raised(p)).error.TxPriceTooHigh? {
      PriceRetryEndsInDust(env, Raised(p));
    }
  }

  function Kept(p: Params, k: nat): Params
    requires k <= |p.utxos|
  {
    p.(utxos := p.utxos[..k])
  }

  // A transaction is only ever returned by an attempt at the original fee, on a prefix of the inputs.
  lemma {:induction false} ReturnedTransaction(env: Chain, p: Params) returns (k: nat)
    requires RawTransaction(env, p).Success?
    ensures k <= |p.utxos| && Attempt(env, Kept(p, k)) == Ok(RawTransaction(env, p).built)
    ensures k == |p.utxos| || exists size :: Attempt(env, p) == Err(TxTooLarge(size))
    decreases |p.utxos|
  {
    match Attempt(env, p)
    case Ok(b) =>
      k := |p.utxos|;
      assert Kept(p, k) == p;
    case Err(e) =>
      if e.TxPriceTooHigh? {
        PriceRetryEndsInDust(env, p);
      } else {
        k := ReturnedTransaction(env, Dropped(p));
        assert Kept(Dropped(p), k) == Kept(p, k);
      }
  }

  // Its price suits every withdrawal.
  lemma ReturnedPrice(env: Chain, p: Params, i: nat)
    requires RawTransaction(env, p).Success? && i < |p.withdrawals|
    ensures EffectivePrice(p, RawTransaction(env, p).built.tx) <= p.withdrawals[i].txPrice as real
  {
    var k := ReturnedTransaction(env, p);
    AttemptPrice(env, p, k, RawTransaction(env, p).built, i);
  }

  lemma AttemptPrice(env: Chain, p: Params, k: nat, b: Built, i: nat)
    requires k <= |p.utxos| && Attempt(env, Kept(p, k)) == Ok(b) && i < |p.withdrawals|
    ensures EffectivePrice(p, b.tx) <= p.withdrawals[i].txPrice as real
  {
  }

  // ---------- Conservation ----------

  function TaskAmount(t: Task): int { t.amount }

  lemma {:induction false} WithdrawOutputsSum(net: Net, ws: seq<Withdraw>, fee: int, dust: int)
    requires WithdrawOutputs(net, ws, fee, dust).Ok?
    ensures var outs := WithdrawOutputs(net, ws, fee, dust).value;
            Sum(Value, outs) == Sum(WithdrawAmount, ws) - |ws| * fee
  {
    if ws != [] {
      var front := ws[..|ws| - 1];
      WithdrawOutputsSum(net, front, fee, dust);
      var w := ws[|ws| - 1];
      SumSnoc(Value, WithdrawOutputs(net, front, fee, dust).value, TxOut(w.amount - fee, net(w.to).value));
      OneMoreFee(|front|, fee);
    }
  }

  lemma OneMoreFee(n: nat, fee: int)
    ensures (n + 1) * fee == n * fee + fee
  {
  }

  // Each withdrawal is paid by the output at its own position, above dust.
  lemma {:induction false} WithdrawOutputsPay(net: Net, ws: seq<Withdraw>, fee: int, dust: int, i: nat)
    requires WithdrawOutputs(net, ws, fee, dust).Ok? && i < |ws|
    ensures var out := WithdrawOutputs(net, ws, fee, dust).value[i];
            net(ws[i].to) == Some(out.script) && out.value == ws[i].amount - fee > dust
  {
    if i < |ws| - 1 {
      WithdrawOutputsPay(net, ws[..|ws| - 1], fee, dust, i);
    }
  }

  lemma {:induction false} TaskOutputsSum(net: Net, tasks: seq<Task>)
    requires TaskOutputs(net, tasks).Ok?
    ensures Sum(Value, TaskOutputs(net, tasks).value) == Sum(TaskAmount, tasks)
  {
    if tasks != [] {
      var front := tasks[..|tasks| - 1];
      TaskOutputsSum(net, front);
      var t := tasks[|tasks| - 1];
      SumSnoc(Value, TaskOutputs(net, front).value, TxOut(t.amount, net(t.timelockAddress).value));
    }
  }

  lemma OutputsSum(net: Net, p: Params)
    requires Outputs(net, p).Ok?
    ensures var (fee, changeFee) := CalculateFees(p);
            Sum(Value, Outputs(net, p).value)
            == Sum(WithdrawAmount, p.withdrawals) - |p.withdrawals| * fee + Sum(TaskAmount, p.tasks)
               + if p.changeAmount > changeFee then p.changeAmount - changeFee else 0
  {
    var (fee, changeFee) := CalculateFees(p);
    var dust := GetDustAmount(p.networkFee);
    var a := WithdrawOutputs(net, p.withdrawals, fee, dust).value;
    var b := TaskOutputs(net, p.tasks).value;
    var c := ChangeOutputs(net, p.changeAddress, p.changeAmount - changeFee, dust).value;
    WithdrawOutputsSum(net, p.withdrawals, fee, dust);
    TaskOutputsSum(net, p.tasks);
    ChangeSum(net, p.changeAddress, p.changeAmount - changeFee, dust);
    SumConcat(Value, a, b);
    SumConcat(Value, a + b, c);
  }

  lemma ChangeSum(net: Net, changeAddress: string, val: int, dust: int)
    requires ChangeOutputs(net, changeAddress, val, dust).Ok?
    ensures Sum(Value, ChangeOutputs(net, changeAddress, val, dust).value) == if val > 0 then val else 0
  {
    if val > 0 {
      SumSnoc(Value, [], TxOut(val, net(changeAddress).value));
      assert [] + [TxOut(val, net(changeAddress).value)] == ChangeOutputs(net, changeAddress, val, dust).value;
    }
  }

  // The fee taken from n outputs covers the estimate and exceeds it by less than one unit per output.
  lemma SharedFeeBounds(p: Params)
    requires p.withdrawals != []
    ensures var n, fee := |p.withdrawals|, CalculateFees(p).0;
            p.estimatedFee <= (n * fee) as real < p.estimatedFee + n as real
  {
    var n := |p.withdrawals| as real;
    var q := p.estimatedFee / n;
    var fee := CalculateFees(p).0;
    CeilBounds(q);
    assert q * n == p.estimatedFee;
    MulMonotone(q, fee as real, n);
    StrictMul(fee as real, q + 1.0, n);
    assert (|p.withdrawals| * fee) as real == fee as real * n;
    assert (q + 1.0) * n == q * n + n;
  }

  // Amounts of a returned withdrawal transaction.  The change that was too small for an output is missing
  // from both sides' outputs, and inputs dropped for size are missing from the inputs.
  lemma WithdrawalConservation(env: Chain, p: Params)
    requires RawTransaction(env, p).Success? && p.withdrawals != [] && p.tasks == [] && p.changeAmount >= 0
    requires p.utxoAmount == Sum(CoinSelection.Amount, p.utxos)
    requires p.withdrawAmount == Sum(WithdrawAmount, p.withdrawals)
    ensures var Built(tx, fee), n := RawTransaction(env, p).built, |p.withdrawals|;
            && |tx.inputs| <= |p.utxos|
            && tx.inputs == OutPoints(p.utxos[..|tx.inputs|])
            && Sum(CoinSelection.Amount, p.utxos)
               == Sum(Value, tx.outputs) + n * fee + (p.utxoAmount - p.withdrawAmount - p.changeAmount)
            && p.estimatedFee <= (n * fee) as real < p.estimatedFee + n as real
            && ((exists size :: Attempt(env, p) == Err(TxTooLarge(size))) || tx.inputs == OutPoints(p.utxos))
  {
    var k := ReturnedTransaction(env, p);
    OutputsSum(env.net, Kept(p, k));
    SharedFeeBounds(p);
    assert p.utxos[..|p.utxos|] == p.utxos;
  }

  // ---------- Dust change ----------

  lemma WithdrawalChange(env: Chain, p: Params, value: int)
    requires p.withdrawals != [] && (p.changeAmount == 0 || p.changeAmount > GetDustAmount(p.networkFee))
    ensures Attempt(env, p) != Err(ChangeDustAmount(value))
  {
  }

  // With no change or change above dust, building withdrawals never ends in the change-dust error.
  lemma {:induction false} NoChangeDust(env: Chain, p: Params, value: int)
    requires p.withdrawals != [] && (p.changeAmount == 0 || p.changeAmount > GetDustAmount(p.networkFee))
    ensures RawTransaction(env, p) != Failed(ChangeDustAmount(value))
    decreases |p.utxos|
  {
    WithdrawalChange(env, p, value);
    var a := Attempt(env, p);
    if a.Err? && a.error.TxPriceTooHigh? {
      PriceRetryEndsInDust(env, p);
    } else if a.Err? && a.error.TxTooLarge? && |p.utxos| > 1 {
      NoChangeDust(env, Dropped(p), value);
    }
  }

  // ---------- Consolidations and safebox transactions ----------

  lemma ReturnedOutputs(env: Chain, p: Params)
    requires RawTransaction(env, p).Success?
    ensures Outputs(env.net, p) == Ok(RawTransaction(env, p).built.tx.outputs)
  {
    var k := ReturnedTransaction(env, p);
    AttemptOutputs(env, p, k, RawTransaction(env, p).built);
  }

  lemma AttemptOutputs(env: Chain, p: Params, k: nat, b: Built)
    requires k <= |p.utxos| && Attempt(env, Kept(p, k)) == Ok(b)
    ensures Outputs(env.net, p) == Ok(b.tx.outputs)
    ensures b.tx.inputs == OutPoints(p.utxos[..k]) && b.actualFee == CalculateFees(p).0
  {
  }

  // ---------- Positions ----------

  lemma {:induction false} TaskOutputsPay(net: Net, tasks: seq<Task>, j: nat)
    requires TaskOutputs(net, tasks).Ok? && j < |tasks|
    ensures var out := TaskOutputs(net, tasks).value[j];
            net(tasks[j].timelockAddress) == Some(out.script) && out.value == tasks[j].amount
  {
    if j < |tasks| - 1 {
      TaskOutputsPay(net, tasks[..|tasks| - 1], j);
    }
  }

  // What pays what: the withdrawals come first, each paid its amount less an equal share of the fee, then the tasks, each
  // paid its amount.
  ghost predicate PaysInOrder(net: Net, p: Params, outs: seq<TxOut>) {
    var n, m := |p.withdrawals|, |p.tasks|;
    && n + m <= |outs|
    && (forall i :: 0 <= i < n ==>
          && net(p.withdrawals[i].to) == Some(outs[i].script)
          && outs[i].value == p.withdrawals[i].amount - Ceil(p.estimatedFee / n as real) > 93 * p.networkFee)
    && forall j :: 0 <= j < m ==>
         net(p.tasks[j].timelockAddress) == Some(outs[n + j].script) && outs[n + j].value == p.tasks[j].amount
  }

  // At most one output follows, exactly when change is left, which pays the fee unless withdrawals do.
  ghost predicate ThenChange(net: Net, p: Params, outs: seq<TxOut>) {
    var k := |p.withdrawals| + |p.tasks|;
    var change := p.changeAmount - if p.withdrawals != [] then 0 else Ceil(p.estimatedFee);
    if change > 0 then
      && |outs| == k + 1 && outs[k].value == change > 93 * p.networkFee
      && net(p.changeAddress) == Some(outs[k].script)
    else |outs| == k
  }

  // The inputs of a returned transaction are the chosen coins in turn, as many of them as were kept.
  lemma InputPositions(env: Chain, p: Params)
    requires RawTransaction(env, p).Success?
    ensures var ins := RawTransaction(env, p).built.tx.inputs;
            |ins| <= |p.utxos| && forall i :: 0 <= i < |ins| ==> ins[i] == p.utxos[i].outPoint
  {
    var k := ReturnedTransaction(env, p);
    AttemptOutputs(env, p, k, RawTransaction(env, p).built);
  }

  // Every output of a returned transaction is where it belongs.
  lemma OutputPositions(env: Chain, p: Params)
    requires RawTransaction(env, p).Success?
    ensures PaysInOrder(env.net, p, RawTransaction(env, p).built.tx.outputs)
    ensures ThenChange(env.net, p, RawTransaction(env, p).built.tx.outputs)
  {
    ReturnedOutputs(env, p);
    OutputsInOrder(env.net, p);
    OutputsThenChange(env.net, p);
  }

  lemma OutputsInOrder(net: Net, p: Params)
    requires Outputs(net, p).Ok?
    ensures PaysInOrder(net, p, Outputs(net, p).value)
  {
    var fee, dust := CalculateFees(p).0, GetDustAmount(p.networkFee);
    var a, b := WithdrawOutputs(net, p.withdrawals, fee, dust).value, TaskOutputs(net, p.tasks).value;
    forall i | 0 <= i < |p.withdrawals|
      ensures net(p.withdrawals[i].to) == Some(a[i].script) && a[i].value == p.withdrawals[i].amount - fee > dust
    {
      WithdrawOutputsPay(net, p.withdrawals, fee, dust, i);
    }
    forall j | 0 <= j < |p.tasks| ensures net(p.tasks[j].timelockAddress) == Some(b[j].script) && b[j].value == p.tasks[j].amount {
      TaskOutputsPay(net, p.tasks, j);
    }
  }

  lemma OutputsThenChange(net: Net, p: Params)
    requires Outputs(net, p).Ok?
    ensures ThenChange(net, p, Outputs(net, p).value)
  {
  }

  // ---------- The first obstacle ----------

  ghost predicate Pays(net: Net, w: Withdraw, fee: int, dust: int) {
    net(w.to).Some? && w.amount - fee > dust
  }

  lemma {:induction false} AllPay(net: Net, ws: seq<Withdraw>, fee: int, dust: int)
    requires forall j :: 0 <= j < |ws| ==> Pays(net, ws[j], fee, dust)
    ensures WithdrawOutputs(net, ws, fee, dust).Ok?
  {
    if ws != [] {
      AllPay(net, ws[..|ws| - 1], fee, dust);
    }
  }

  lemma {:induction false} FirstUnpaid(net: Net, ws: seq<Withdraw>, fee: int, dust: int, i: nat)
    requires i < |ws| && !Pays(net, ws[i], fee, dust) && forall j :: 0 <= j < i ==> Pays(net, ws[j], fee, dust)
    ensures WithdrawOutputs(net, ws, fee, dust)
            == Err(if net(ws[i].to).None? then InvalidAddress else WithdrawDustAmount(ws[i].amount - fee))
    decreases |ws|
  {
    if i < |ws| - 1 {
      FirstUnpaid(net, ws[..|ws| - 1], fee, dust, i);
    } else {
      AllPay(net, ws[..i], fee, dust);
    }
  }

  lemma {:induction false} TaskObstacle(net: Net, tasks: seq<Task>)
    ensures TaskOutputs(net, tasks).Ok? <==> forall j :: 0 <= j < |tasks| ==> net(tasks[j].timelockAddress).Some?
  {
    if tasks != [] {
      TaskObstacle(net, tasks[..|tasks| - 1]);
    }
  }

  // An unreadable coin id comes first; then the first withdrawal that cannot be paid, for its address or for dust; then
  // the tasks' addresses; then the change, if there is any.
  lemma FirstObstacle(env: Chain, p: Params, i: nat)
    ensures !ValidIds(env, p.utxos) ==> RawTransaction(env, p) == Failed(InvalidUtxo)
    ensures ValidIds(env, p.utxos) && i < |p.withdrawals| ==>
              var fee, dust, w := Ceil(p.estimatedFee / |p.withdrawals| as real), 93 * p.networkFee, p.withdrawals[i];
              !Pays(env.net, w, fee, dust) && (forall j :: 0 <= j < i ==> Pays(env.net, p.withdrawals[j], fee, dust)) ==>
                RawTransaction(env, p)
                == Failed(if env.net(w.to).None? then InvalidAddress else WithdrawDustAmount(w.amount - fee))
    ensures ValidIds(env, p.utxos) && p.withdrawals == [] && i < |p.tasks| && env.net(p.tasks[i].timelockAddress).None? ==>
              RawTransaction(env, p) == Failed(InvalidAddress)
    ensures ValidIds(env, p.utxos) && p.withdrawals == []
            && (forall j :: 0 <= j < |p.tasks| ==> env.net(p.tasks[j].timelockAddress).Some?) ==>
              var change := p.changeAmount - Ceil(p.estimatedFee);
              && (change > 0 && env.net(p.changeAddress).None? ==> RawTransaction(env, p) == Failed(InvalidAddress))
              && (0 < change <= 93 * p.networkFee && env.net(p.changeAddress).Some? ==>
                    RawTransaction(env, p) == Failed(ChangeDustAmount(change)))
  {
    if ValidIds(env, p.utxos) && i < |p.withdrawals| {
      var fee, dust := CalculateFees(p).0, GetDustAmount(p.networkFee);
      if !Pays(env.net, p.withdrawals[i], fee, dust) && forall j :: 0 <= j < i ==> Pays(env.net, p.withdrawals[j], fee, dust) {
        FirstUnpaid(env.net, p.withdrawals, fee, dust, i);
      }
    }
    TaskObstacle(env.net, p.tasks);
  }

  // The parameters of a consolidation: one change output pays for everything.
  predicate IsMerge(p: Params, m: CoinSelection.Merge) {
    && p.utxos == m.utxos && p.withdrawals == [] && p.tasks == []
    && p.changeAmount == m.finalAmount && p.estimatedFee == 0.0
  }

  // A consolidation pays the estimated size, rounded up, times the fee rate.
  lemma ConsolidationConservation(env: Chain, p: Params, m: CoinSelection.Merge, networkFee: int)
    requires IsMerge(p, m) && RawTransaction(env, p).Success?
    requires m.total == Sum(CoinSelection.Amount, m.utxos)
    requires m.finalAmount == m.total - CoinSelection.ConsolidationFee(m.utxos, networkFee) && m.finalAmount > 0
    ensures Sum(CoinSelection.Amount, p.utxos) - Sum(Value, RawTransaction(env, p).built.tx.outputs)
            == CoinSelection.ConsolidationFee(m.utxos, networkFee)
  {
    ReturnedOutputs(env, p);
    OutputsSum(env.net, p);
  }

  // A safebox transaction takes its whole fee from the change, or from nothing when the change is too small.
  lemma SafeboxConservation(env: Chain, p: Params)
    requires p.withdrawals == [] && RawTransaction(env, p).Success?
    requires p.utxoAmount == Sum(CoinSelection.Amount, p.utxos)
    requires p.withdrawAmount == Sum(TaskAmount, p.tasks)
    ensures var fee := Ceil(p.estimatedFee);
            p.utxoAmount - Sum(Value, RawTransaction(env, p).built.tx.outputs)
            == if p.changeAmount > fee then fee + (p.utxoAmount - p.withdrawAmount - p.changeAmount)
               else p.utxoAmount - p.withdrawAmount
  {
    ReturnedOutputs(env, p);
    OutputsSum(env.net, p);
  }

  // ---------- The fee field is never read ----------

  lemma {:induction false} BlindOutputs(net: Net, ws: seq<Withdraw>, fee: int, dust: int)
    ensures WithdrawOutputs(net, FeeBlind(ws), fee, dust) == WithdrawOutputs(net, ws, fee, dust)
  {
    if ws != [] {
      var front := ws[..|ws| - 1];
      BlindOutputs(net, front, fee, dust);
      assert FeeBlind(ws)[..|ws| - 1] == FeeBlind(front);
    }
  }

  lemma {:induction false} BlindRefuses(ws: seq<Withdraw>, price: real)
    ensures Refuses(FeeBlind(ws), price) == Refuses(ws, price)
  {
    if ws != [] {
      BlindRefuses(ws[1..], price);
      assert FeeBlind(ws)[1..] == FeeBlind(ws[1..]);
    }
  }

  function Blind(p: Params): Params {
    p.(withdrawals := FeeBlind(p.withdrawals))
  }

  lemma BlindAttempt(env: Chain, p: Params)
    ensures Attempt(env, Blind(p)) == Attempt(env, p)
  {
    BlindOutputsAll(env.net, p);
    if Outputs(env.net, p).Ok? {
      BlindRefusal(p, Tx(OutPoints(p.utxos), Outputs(env.net, p).value));
    }
  }

  lemma BlindOutputsAll(net: Net, p: Params)
    ensures CalculateFees(Blind(p)) == CalculateFees(p) && Outputs(net, Blind(p)) == Outputs(net, p)
  {
    BlindOutputs(net, p.withdrawals, CalculateFees(p).0, GetDustAmount(p.networkFee));
  }

  lemma BlindRefusal(p: Params, tx: Tx)
    ensures Refuses(Blind(p).withdrawals, EffectivePrice(Blind(p), tx)) == Refuses(p.withdrawals, EffectivePrice(p, tx))
  {
    BlindRefuses(p.withdrawals, EffectivePrice(p, tx));
  }

  // Building does not depend on the fees already written into withdrawals.
  lemma {:induction false} BlindBuild(env: Chain, p: Params)
    ensures RawTransaction(env, Blind(p)) == RawTransaction(env, p)
    decreases |p.utxos|, Fuel(p)
  {
    BlindAttempt(env, p);
    var a := Attempt(env, p);
    if a.Err? && a.error.TxPriceTooHigh? {
      PriceErrorBound(env, p);
      RaiseDropsFuel(p);
      BlindBuild(env, Raised(p));
      assert Blind(Raised(p)) == Raised(Blind(p));
    } else if a.Err? && a.error.TxTooLarge? && |p.utxos| > 1 {
      BlindBuild(env, Dropped(p));
      assert Blind(Dropped(p)) == Dropped(Blind(p));
    }
  }

  // ---------- The size retry ----------

  predicate ValidIds(env: Chain, utxos: seq<Utxo>) {
    forall i :: 0 <= i < |utxos| ==> env.validTxid(utxos[i].outPoint.txid)
  }

  predicate Fits(env: Chain, size: int) {
    env.minTxSize <= size <= env.maxTxSize
  }

  // The serialised size with the first k inputs.
  function SizeWith(utxos: seq<Utxo>, outs: seq<TxOut>, k: nat): int
    requires k <= |utxos|
  {
    SerializeSizeNoWitness(Tx(OutPoints(utxos[..k]), outs))
  }

  // No number of inputs that the size retry reaches gives a transaction of an allowed size.
  ghost predicate NoPrefixFits(env: Chain, utxos: seq<Utxo>, outs: seq<TxOut>) {
    forall k :: 0 <= k <= |utxos| && (k > 0 || utxos == []) ==> !Fits(env, SizeWith(utxos, outs, k))
  }

  ghost predicate Stuck(env: Chain, utxos: seq<Utxo>, outs: Result<seq<TxOut>, TxError>) {
    ValidIds(env, utxos) && outs.Ok? && NoPrefixFits(env, utxos, outs.value)
  }

  ghost predicate NeverFits(env: Chain, p: Params) {
    Stuck(env, p.utxos, Outputs(env.net, p))
  }

  lemma AttemptTooLarge(env: Chain, p: Params)
    ensures (exists size :: Attempt(env, p) == Err(TxTooLarge(size)))
            <==> && ValidIds(env, p.utxos) && Outputs(env.net, p).Ok?
                 && !Fits(env, SizeWith(p.utxos, Outputs(env.net, p).value, |p.utxos|))
  {
    assert p.utxos[..|p.utxos|] == p.utxos;
  }

  lemma DroppedPrefixes(env: Chain, utxos: seq<Utxo>, outs: seq<TxOut>)
    requires |utxos| > 1 && !Fits(env, SizeWith(utxos, outs, |utxos|))
    ensures NoPrefixFits(env, utxos[..|utxos| - 1], outs) <==> NoPrefixFits(env, utxos, outs)
  {
    var front := utxos[..|utxos| - 1];
    forall k: nat | k <= |front| ensures SizeWith(front, outs, k) == SizeWith(utxos, outs, k) {
      assert front[..k] == utxos[..k];
    }
  }

  lemma DroppedStuck(env: Chain, utxos: seq<Utxo>, outs: Result<seq<TxOut>, TxError>)
    requires |utxos| > 1 && ValidIds(env, utxos) && outs.Ok? && !Fits(env, SizeWith(utxos, outs.value, |utxos|))
    ensures Stuck(env, utxos[..|utxos| - 1], outs) <==> Stuck(env, utxos, outs)
  {
    DroppedPrefixes(env, utxos, outs.value);
  }

  lemma DroppedOutputs(net: Net, p: Params)
    requires p.utxos != []
    ensures Outputs(net, Dropped(p)) == Outputs(net, p)
  {
  }

  // Building fails to return exactly when no number of inputs fits.
  lemma {:induction false} NoReturnIff(env: Chain, p: Params)
    ensures RawTransaction(env, p).NoReturn? <==> NeverFits(env, p)
    decreases |p.utxos|
  {
    AttemptTooLarge(env, p);
    var a := Attempt(env, p);
    if a.Err? && a.error.TxTooLarge? {
      assert Attempt(env, p) == Err(TxTooLarge(a.error.size));
      if |p.utxos| > 1 {
        DroppedStuck(env, p.utxos, Outputs(env.net, p));
        DroppedOutputs(env.net, p);
        NoReturnIff(env, Dropped(p));
      }
    } else if a.Err? && a.error.TxPriceTooHigh? {
      PriceRetryEndsInDust(env, p);
    }
  }

  lemma {:induction false} ManyOutputs(net: Net, tasks: seq<Task>)
    requires forall i :: 0 <= i < |tasks| ==> net(tasks[i].timelockAddress).Some?
    ensures TaskOutputs(net, tasks).Ok? && Sum(OutputSize, TaskOutputs(net, tasks).value) >= 9 * |tasks|
  {
    if tasks != [] {
      var front := tasks[..|tasks| - 1];
      ManyOutputs(net, front);
      var t := tasks[|tasks| - 1];
      SumSnoc(OutputSize, TaskOutputs(net, front).value, TxOut(t.amount, net(t.timelockAddress).value));
    }
  }

  function Oversized(u: Utxo, t: Task, n: nat): Params {
    Params([u], [], seq(n, _ => t), "", 0, 0.0, 0, 1, u.amount, n * t.amount)
  }

  // Whatever the size limit, enough outputs on one input exceed it: building then does not return.
  lemma OversizedHangs(env: Chain, u: Utxo, t: Task, n: nat)
    requires env.validTxid(u.outPoint.txid) && env.net(t.timelockAddress).Some? && 9 * n > env.maxTxSize
    ensures RawTransaction(env, Oversized(u, t, n)).NoReturn?
  {
    var p := Oversized(u, t, n);
    ManyOutputs(env.net, p.tasks);
    var outs := TaskOutputs(env.net, p.tasks).value;
    assert [] + outs + [] == outs;
    assert Outputs(env.net, p) == Ok(outs);
    NoReturnIff(env, p);
  }
}
