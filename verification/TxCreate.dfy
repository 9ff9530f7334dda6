// The transaction builder as it runs: the parameters are changed in place by attempts and retries.
module TxCreate {
  import opened Common
  import opened Models
  import opened Sums
  import opened TxSize
  import opened BatchSelection
  import opened TxBuilder

  class TransactionParams {
    var utxos: seq<Utxo>
    var withdrawals: seq<Withdraw>
    var estimatedFee: real
    const tasks: seq<Task>
    const changeAddress: string
    const changeAmount: int
    const witnessSize: nat
    const networkFee: int
    const utxoAmount: int
    const withdrawAmount: int

    // What building depends on.
    ghost function Input(): Params
      reads this
    {
      Params(utxos, FeeBlind(withdrawals), tasks, changeAddress, changeAmount, estimatedFee, witnessSize,
             networkFee, utxoAmount, withdrawAmount)
    }

    constructor (p: Params)
      ensures utxos == p.utxos && withdrawals == p.withdrawals
      ensures Input() == p.(withdrawals := FeeBlind(p.withdrawals))
    {
      utxos, withdrawals, estimatedFee := p.utxos, p.withdrawals, p.estimatedFee;
      tasks, changeAddress, changeAmount := p.tasks, p.changeAddress, p.changeAmount;
      witnessSize, networkFee := p.witnessSize, p.networkFee;
      utxoAmount, withdrawAmount := p.utxoAmount, p.withdrawAmount;
    }
  }

  method AddTransactionInputs(env: Chain, utxos: seq<Utxo>) returns (r: Result<seq<OutPoint>, TxError>)
    ensures r == if exists i :: 0 <= i < |utxos| && !env.validTxid(utxos[i].outPoint.txid) then Err(InvalidUtxo)
                 else Ok(OutPoints(utxos))
  {
    var inputs := [];
    for i := 0 to |utxos|
      invariant inputs == OutPoints(utxos)[..i]
      invariant forall k :: 0 <= k < i ==> env.validTxid(utxos[k].outPoint.txid)
    {
      if !env.validTxid(utxos[i].outPoint.txid) {
        return Err(InvalidUtxo);
      }
      inputs := inputs + [utxos[i].outPoint];
    }
    assert inputs == OutPoints(utxos);
    r := Ok(inputs);
  }

  // Writes each withdrawal's share of the fee; a failure leaves the later ones as they were.
  method AddWithdrawOutputs(env: Chain, params: TransactionParams, actualFee: int)
    returns (r: Result<seq<TxOut>, TxError>)
    modifies params`withdrawals
    ensures r == WithdrawOutputs(env.net, old(params.Input().withdrawals), actualFee, GetDustAmount(params.networkFee))
    ensures params.Input() == old(params.Input())
    ensures r.Ok? ==> forall i :: 0 <= i < |params.withdrawals| ==> params.withdrawals[i].txFee == actualFee
  {
    ghost var ws := params.Input().withdrawals;
    var outs: seq<TxOut> := [];
    var dust := GetDustAmount(params.networkFee);
    var i := 0;
    while i < |params.withdrawals|
      invariant 0 <= i <= |params.withdrawals|
      invariant FeeBlind(params.withdrawals) == ws
      invariant WithdrawOutputs(env.net, ws[..i], actualFee, dust) == Ok(outs)
      invariant forall k :: 0 <= k < i ==> params.withdrawals[k].txFee == actualFee
    {
      var w := params.withdrawals[i];
      WithdrawOutputsNext(env.net, ws, actualFee, dust, i);
      var script := env.net(w.to);
      if script.None? {
        WithdrawFailure(env.net, ws, actualFee, dust, i + 1);
        return Err(InvalidAddress);
      }
      var val := w.amount - actualFee;
      if val <= dust {
        WithdrawFailure(env.net, ws, actualFee, dust, i + 1);
        return Err(WithdrawDustAmount(val));
      }
      params.withdrawals := params.withdrawals[i := w.(txFee := w.amount - val)];
      outs := outs + [TxOut(val, script.value)];
      i := i + 1;
    }
    assert ws[..i] == ws;
    r := Ok(outs);
  }

  lemma WithdrawOutputsNext(net: Net, ws: seq<Withdraw>, actualFee: int, dust: int, i: nat)
    requires i < |ws| && WithdrawOutputs(net, ws[..i], actualFee, dust).Ok?
    ensures var val := ws[i].amount - actualFee;
            WithdrawOutputs(net, ws[..i + 1], actualFee, dust)
            == match net(ws[i].to)
               case None => Err(InvalidAddress)
               case Some(script) => if val <= dust then Err(WithdrawDustAmount(val))
                                    else Ok(WithdrawOutputs(net, ws[..i], actualFee, dust).value + [TxOut(val, script)])
  {
    assert ws[..i + 1][..i] == ws[..i];
  }

  lemma {:induction false} WithdrawFailure(net: Net, ws: seq<Withdraw>, actualFee: int, dust: int, i: nat)
    requires i <= |ws| && WithdrawOutputs(net, ws[..i], actualFee, dust).Err?
    ensures WithdrawOutputs(net, ws, actualFee, dust) == WithdrawOutputs(net, ws[..i], actualFee, dust)
  {
    if i < |ws| {
      var front := ws[..|ws| - 1];
      assert front[..i] == ws[..i];
      WithdrawFailure(net, front, actualFee, dust, i);
    } else {
      assert ws[..i] == ws;
    }
  }

  method AddTaskOutputs(env: Chain, tasks: seq<Task>) returns (r: Result<seq<TxOut>, TxError>)
    ensures r == TaskOutputs(env.net, tasks)
  {
    var outs: seq<TxOut> := [];
    var i := 0;
    while i < |tasks|
      invariant 0 <= i <= |tasks|
      invariant TaskOutputs(env.net, tasks[..i]) == Ok(outs)
    {
      assert tasks[..i + 1][..i] == tasks[..i];
      var script := env.net(tasks[i].timelockAddress);
      if script.None? {
        TaskFailure(env.net, tasks, i + 1);
        return Err(InvalidAddress);
      }
      outs := outs + [TxOut(tasks[i].amount, script.value)];
      i := i + 1;
    }
    assert tasks[..i] == tasks;
    r := Ok(outs);
  }

  lemma {:induction false} TaskFailure(net: Net, tasks: seq<Task>, i: nat)
    requires i <= |tasks| && TaskOutputs(net, tasks[..i]).Err?
    ensures TaskOutputs(net, tasks) == TaskOutputs(net, tasks[..i])
  {
    if i < |tasks| {
      assert tasks[..|tasks| - 1][..i] == tasks[..i];
      TaskFailure(net, tasks[..|tasks| - 1], i);
    } else {
      assert tasks[..i] == tasks;
    }
  }

  method AddTransactionOutputs(env: Chain, params: TransactionParams, actualFee: int, changeFee: int)
    returns (r: Result<seq<TxOut>, TxError>)
    requires (actualFee, changeFee) == CalculateFees(params.Input())
    modifies params`withdrawals
    ensures r == Outputs(env.net, old(params.Input())) && params.Input() == old(params.Input())
    ensures r.Ok? ==> forall i :: 0 <= i < |params.withdrawals| ==> params.withdrawals[i].txFee == actualFee
  {
    var outs := AddWithdrawOutputs(env, params, actualFee);
    if outs.Err? {
      return outs;
    }
    var taskOuts := AddTaskOutputs(env, params.tasks);
    if taskOuts.Err? {
      return taskOuts;
    }
    var changeOuts := ChangeOutputs(env.net, params.changeAddress, params.changeAmount - changeFee,
                                    GetDustAmount(params.networkFee));
    if changeOuts.Err? {
      return changeOuts;
    }
    r := Ok(outs.value + taskOuts.value + changeOuts.value);
  }

  // One attempt: inputs, fees, outputs, size, price.
  method CreateTransaction(env: Chain, params: TransactionParams) returns (r: Result<Built, TxError>)
    modifies params`withdrawals
    ensures r == Attempt(env, old(params.Input())) && params.Input() == old(params.Input())
    ensures r.Ok? ==> forall i :: 0 <= i < |params.withdrawals| ==>
              params.withdrawals[i].txFee == r.value.actualFee
  {
    var inputs := AddTransactionInputs(env, params.utxos);
    if inputs.Err? {
      return Err(inputs.error);
    }
    var n := |params.withdrawals|;
    var actualFee, changeFee := 0, 0;
    if n > 0 {
      actualFee := Ceil(params.estimatedFee / n as real);
    } else {
      changeFee := Ceil(params.estimatedFee);
    }
    var outputs := AddTransactionOutputs(env, params, actualFee, changeFee);
    if outputs.Err? {
      return Err(outputs.error);
    }
    r := ValidateTransaction(env, params, Tx(inputs.value, outputs.value), actualFee);
  }

  method ValidateTransaction(env: Chain, params: TransactionParams, tx: Tx, actualFee: int)
    returns (r: Result<Built, TxError>)
    requires Outputs(env.net, params.Input()) == Ok(tx.outputs) && tx.inputs == OutPoints(params.utxos)
    requires forall i :: 0 <= i < |params.utxos| ==> env.validTxid(params.utxos[i].outPoint.txid)
    requires actualFee == CalculateFees(params.Input()).0
    ensures r == Attempt(env, params.Input()) && (r.Ok? ==> r.value.actualFee == actualFee)
  {
    var txSize := SerializeSizeNoWitness(tx);
    if txSize < env.minTxSize || txSize > env.maxTxSize {
      return Err(TxTooLarge(txSize));
    }
    SizePositive(tx);
    var price := params.estimatedFee / (txSize as real + params.witnessSize as real / 4.0);
    ghost var ws := params.Input().withdrawals;
    assert price == EffectivePrice(params.Input(), tx);
    var i := 0;
    while i < |params.withdrawals|
      invariant 0 <= i <= |params.withdrawals|
      invariant Refuses(ws, price) == Refuses(ws[i..], price)
    {
      if price > params.withdrawals[i].txPrice as real {
        return Err(TxPriceTooHigh(params.withdrawals[i].requestId));
      }
      assert ws[i..][1..] == ws[i + 1..];
      i := i + 1;
    }
    r := Ok(Built(tx, actualFee));
  }

  // The attempt and its retries return what RawTransaction computes from the initial parameters.
  method CreateRawTransaction(env: Chain, params: TransactionParams) returns (out: Outcome)
    modifies params
    ensures out == RawTransaction(env, old(params.Input()))
    ensures out.Success? ==> forall i :: 0 <= i < |params.withdrawals| ==>
              params.withdrawals[i].txFee == out.built.actualFee
    ensures FeeBlind(params.withdrawals) == old(FeeBlind(params.withdrawals)) && params.utxos <= old(params.utxos)
    ensures old(params.utxos) != [] ==> params.utxos != []
    ensures out.Success? ==> out.built.tx.inputs == OutPoints(params.utxos)
    decreases |params.utxos|, Fuel(params.Input()), 2
  {
    var r := CreateTransaction(env, params);
    match r {
      case Ok(b) => out := Success(b);
      case Err(e) => out := HandleTransactionError(env, params, e);
    }
  }

  method HandleTransactionError(env: Chain, params: TransactionParams, e: TxError) returns (out: Outcome)
    requires Attempt(env, params.Input()) == Err(e)
    modifies params
    ensures out == RawTransaction(env, old(params.Input()))
    ensures out.Success? ==> forall i :: 0 <= i < |params.withdrawals| ==>
              params.withdrawals[i].txFee == out.built.actualFee
    ensures FeeBlind(params.withdrawals) == old(FeeBlind(params.withdrawals)) && params.utxos <= old(params.utxos)
    ensures old(params.utxos) != [] ==> params.utxos != []
    ensures out.Success? ==> out.built.tx.inputs == OutPoints(params.utxos)
    decreases |params.utxos|, Fuel(params.Input()), 1
  {
    match e {
      case TxPriceTooHigh(_) => out := HandleTxPriceError(env, params, e);
      case TxTooLarge(_) => out := HandleTxSizeError(env, params, e);
      case _ => out := Failed(e);
    }
  }

  method HandleTxPriceError(env: Chain, params: TransactionParams, e: TxError) returns (out: Outcome)
    requires Attempt(env, params.Input()) == Err(e) && e.TxPriceTooHigh?
    modifies params
    ensures out == RawTransaction(env, old(params.Input()))
    ensures out.Success? ==> forall i :: 0 <= i < |params.withdrawals| ==>
              params.withdrawals[i].txFee == out.built.actualFee
    ensures FeeBlind(params.withdrawals) == old(FeeBlind(params.withdrawals)) && params.utxos <= old(params.utxos)
    ensures old(params.utxos) != [] ==> params.utxos != []
    ensures out.Success? ==> out.built.tx.inputs == OutPoints(params.utxos)
    decreases |params.utxos|, Fuel(params.Input()), 0
  {
    PriceErrorBound(env, params.Input());
    RaiseDropsFuel(params.Input());
    params.estimatedFee := params.estimatedFee * 1.1;
    out := CreateRawTransaction(env, params);
  }

  method HandleTxSizeError(env: Chain, params: TransactionParams, e: TxError) returns (out: Outcome)
    requires Attempt(env, params.Input()) == Err(e) && e.TxTooLarge?
    modifies params
    ensures out == RawTransaction(env, old(params.Input()))
    ensures out.Success? ==> forall i :: 0 <= i < |params.withdrawals| ==>
              params.withdrawals[i].txFee == out.built.actualFee
    ensures FeeBlind(params.withdrawals) == old(FeeBlind(params.withdrawals)) && params.utxos <= old(params.utxos)
    ensures old(params.utxos) != [] ==> params.utxos != []
    ensures out.Success? ==> out.built.tx.inputs == OutPoints(params.utxos)
    decreases |params.utxos|, Fuel(params.Input()), 0
  {
    if |params.utxos| > 1 {
      params.utxos := params.utxos[..|params.utxos| - 1];
      out := CreateRawTransaction(env, params);
    } else {
      // The parameters are unchanged, so the recursion of the original does not end.
      out := NoReturn;
    }
  }
}
