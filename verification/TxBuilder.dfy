// Building the unsigned transaction of a send order, with its price and size retries.
module TxBuilder {
  import opened Common
  import opened Models
  import opened Sums
  import opened TxSize
  import opened BatchSelection

  // What the builder takes from its surroundings: address decoding, hash parsing and the size limits.
  datatype Chain = Chain(net: Net, validTxid: string -> bool, minTxSize: int, maxTxSize: int)

  datatype TxError =
    | InvalidUtxo
    | InvalidAddress
    | WithdrawDustAmount(value: int)
    | ChangeDustAmount(value: int)
    | TxTooLarge(size: int)
    | TxPriceTooHigh(requestId: nat)

  datatype Params = Params(
    utxos: seq<Utxo>, withdrawals: seq<Withdraw>, tasks: seq<Task>,
    changeAddress: string, changeAmount: int, estimatedFee: real, witnessSize: nat, networkFee: int,
    utxoAmount: int, withdrawAmount: int)

  datatype Built = Built(tx: Tx, actualFee: int)

  // NoReturn: the size retry cannot drop another input and would recurse forever.
  datatype Outcome = Success(built: Built) | Failed(error: TxError) | NoReturn

  // ---------- One attempt, as a function ----------

  // Withdrawals without the fee field, which building writes and never reads.
  function FeeBlind(ws: seq<Withdraw>): (r: seq<Withdraw>)
    ensures |r| == |ws| && forall i :: 0 <= i < |ws| ==> r[i] == ws[i].(txFee := 0)
  {
    seq(|ws|, i requires 0 <= i < |ws| => ws[i].(txFee := 0))
  }

  function OutPoints(utxos: seq<Utxo>): (r: seq<OutPoint>)
    ensures |r| == |utxos|
  {
    seq(|utxos|, i requires 0 <= i < |utxos| => utxos[i].outPoint)
  }

  // Withdrawals share the fee, rounded up per output; otherwise the change output pays all of it.
  function CalculateFees(p: Params): (int, int) {
    if |p.withdrawals| > 0 then (Ceil(p.estimatedFee / |p.withdrawals| as real), 0)
    else (0, Ceil(p.estimatedFee))
  }

  function WithdrawOutputs(net: Net, ws: seq<Withdraw>, actualFee: int, dust: int): (r: Result<seq<TxOut>, TxError>)
    ensures if r.Ok? then |r.value| == |ws| else r.error.InvalidAddress? || r.error.WithdrawDustAmount?
  {
    if ws == [] then Ok([]) else
    var front := WithdrawOutputs(net, ws[..|ws| - 1], actualFee, dust);
    if front.Err? then front else
    var w := ws[|ws| - 1];
    var val := w.amount - actualFee;
    match net(w.to)
    case None => Err(InvalidAddress)
    case Some(script) => if val <= dust then Err(WithdrawDustAmount(val)) else Ok(front.value + [TxOut(val, script)])
  }

  function TaskOutputs(net: Net, tasks: seq<Task>): (r: Result<seq<TxOut>, TxError>)
    ensures if r.Ok? then |r.value| == |tasks| else r.error.InvalidAddress?
  {
    if tasks == [] then Ok([]) else
    var front := TaskOutputs(net, tasks[..|tasks| - 1]);
    if front.Err? then front else
    var t := tasks[|tasks| - 1];
    match net(t.timelockAddress)
    case None => Err(InvalidAddress)
    case Some(script) => Ok(front.value + [TxOut(t.amount, script)])
  }

  function ChangeOutputs(net: Net, changeAddress: string, val: int, dust: int): (r: Result<seq<TxOut>, TxError>)
    ensures if r.Ok? then |r.value| <= 1 else r.error.InvalidAddress? || r.error.ChangeDustAmount?
  {
    if val <= 0 then Ok([]) else
    match net(changeAddress)
    case None => Err(InvalidAddress)
    case Some(script) => if val <= dust then Err(ChangeDustAmount(val)) else Ok([TxOut(val, script)])
  }

  function Outputs(net: Net, p: Params): (r: Result<seq<TxOut>, TxError>)
    ensures r.Err? ==> r.error.InvalidAddress? || r.error.WithdrawDustAmount? || r.error.ChangeDustAmount?
  {
    var (actualFee, changeFee) := CalculateFees(p);
    var dust := GetDustAmount(p.networkFee);
    var a := WithdrawOutputs(net, p.withdrawals, actualFee, dust);
    if a.Err? then a else
    var b := TaskOutputs(net, p.tasks);
    if b.Err? then b else
    var c := ChangeOutputs(net, p.changeAddress, p.changeAmount - changeFee, dust);
    if c.Err? then c else
    Ok(a.value + b.value + c.value)
  }

  lemma SizePositive(tx: Tx)
    ensures SerializeSizeNoWitness(tx) >= 10
  {
    forall o | o in tx.outputs ensures OutputSize(o) >= 0 {
    }
    SumNonNegative(OutputSize, tx.outputs);
  }

  // The fee estimate spread over the virtual size of the transaction as it will be signed.
  function EffectivePrice(p: Params, tx: Tx): real {
    SizePositive(tx);
    p.estimatedFee / (SerializeSizeNoWitness(tx) as real + p.witnessSize as real / 4.0)
  }

  // The first withdrawal that does not accept a price.
  function Refuses(ws: seq<Withdraw>, price: real): (r: Option<nat>)
    ensures r.None? <==> forall i :: 0 <= i < |ws| ==> price <= ws[i].txPrice as real
  {
    if ws == [] then None
    else if price > ws[0].txPrice as real then Some(ws[0].requestId)
    else
      var r := Refuses(ws[1..], price);
      assert r.None? ==> forall i :: 1 <= i < |ws| ==> ws[i] == ws[1..][i - 1];
      assert forall i :: 0 <= i < |ws[1..]| ==> ws[1..][i] == ws[i + 1];
      r
  }

  function Attempt(env: Chain, p: Params): Result<Built, TxError> {
    if exists i :: 0 <= i < |p.utxos| && !env.validTxid(p.utxos[i].outPoint.txid) then Err(InvalidUtxo) else
    var outs := Outputs(env.net, p);
    if outs.Err? then Err(outs.error) else
    var tx := Tx(OutPoints(p.utxos), outs.value);
    var size := SerializeSizeNoWitness(tx);
    if size < env.minTxSize || size > env.maxTxSize then Err(TxTooLarge(size)) else
    match Refuses(p.withdrawals, EffectivePrice(p, tx))
    case Some(id) => Err(TxPriceTooHigh(id))
    case None => Ok(Built(tx, CalculateFees(p).0))
  }

  // ---------- Retries ----------

  // A price retry raises the fee by a tenth, and a refused price means that every withdrawal output is
  // still above dust, so the fee stays below this bound.
  function FeeBound(p: Params): real {
    if p.withdrawals == [] then 0.0
    else |p.withdrawals| as real * (p.withdrawals[0].amount - GetDustAmount(p.networkFee)) as real
  }

  function Fuel(p: Params): nat {
    if p.estimatedFee <= 0.0 || FeeBound(p) <= 0.0 then 0
    else NonNegativeQuotient(20.0 * FeeBound(p), p.estimatedFee); (20.0 * FeeBound(p) / p.estimatedFee).Floor
  }

  lemma NonNegativeQuotient(a: real, e: real)
    requires a >= 0.0 && e > 0.0
    ensures a / e >= 0.0 && (a / e).Floor >= 0
  {
  }

  lemma {:induction false} FirstOutput(net: Net, ws: seq<Withdraw>, actualFee: int, dust: int)
    requires ws != [] && WithdrawOutputs(net, ws, actualFee, dust).Ok?
    ensures ws[0].amount - actualFee > dust
  {
    if |ws| > 1 {
      FirstOutput(net, ws[..|ws| - 1], actualFee, dust);
    }
  }

  lemma MulDivBound(e: real, n: real, b: real)
    requires n > 0.0 && e / n < b
    ensures e < n * b
  {
    assert e == e / n * n;
  }

  lemma FeeBelowBound(net: Net, p: Params)
    requires p.withdrawals != [] && Outputs(net, p).Ok?
    ensures p.estimatedFee < FeeBound(p)
  {
    var n := |p.withdrawals| as real;
    FirstOutput(net, p.withdrawals, CalculateFees(p).0, GetDustAmount(p.networkFee));
    CeilBounds(p.estimatedFee / n);
    MulDivBound(p.estimatedFee, n, (p.withdrawals[0].amount - GetDustAmount(p.networkFee)) as real);
  }

  lemma PositiveQuotient(a: real, b: real)
    requires b > 0.0 && a / b > 0.0
    ensures a > 0.0
  {
  }

  lemma PositivePrice(p: Params, tx: Tx)
    requires Refuses(p.withdrawals, EffectivePrice(p, tx)).Some?
    ensures p.withdrawals != [] && p.estimatedFee > 0.0
  {
    SizePositive(tx);
    PositiveQuotient(p.estimatedFee, SerializeSizeNoWitness(tx) as real + p.witnessSize as real / 4.0);
  }

  lemma PriceErrorBound(env: Chain, p: Params)
    requires Attempt(env, p).Err? && Attempt(env, p).error.TxPriceTooHigh?
    ensures p.withdrawals != [] && 0.0 < p.estimatedFee < FeeBound(p)
  {
    PositivePrice(p, Tx(OutPoints(p.utxos), Outputs(env.net, p).value));
    FeeBelowBound(env.net, p);
  }

  function Raised(p: Params): Params {
    p.(estimatedFee := p.estimatedFee * 1.1)
  }

  lemma MulMonotone(x: real, c: real, e: real)
    requires x <= c && e > 0.0
    ensures x * e <= c * e
  {
  }

  lemma QuotientDrops(b: real, e: real)
    requires 0.0 < e < b
    ensures (20.0 * b / (e * 1.1)).Floor < (20.0 * b / e).Floor
  {
    var x, y := 20.0 * b / e, 20.0 * b / (e * 1.1);
    assert x * e == 20.0 * b;
    if x <= 20.0 {
      MulMonotone(x, 20.0, e);
    }
    assert y * (e * 1.1) == 20.0 * b;
    assert y * 1.1 * e == x * e;
    if y * 1.1 < x {
      StrictMul(y * 1.1, x, e);
    } else if y * 1.1 > x {
      StrictMul(x, y * 1.1, e);
    }
  }

  lemma StrictMul(x: real, c: real, e: real)
    requires x < c && e > 0.0
    ensures x * e < c * e
  {
  }

  lemma RaiseDropsFuel(p: Params)
    requires 0.0 < p.estimatedFee < FeeBound(p)
    ensures Fuel(Raised(p)) < Fuel(p)
  {
    var q := Raised(p);
    assert FeeBound(q) == FeeBound(p) && q.estimatedFee > 0.0;
    QuotientDrops(FeeBound(p), p.estimatedFee);
    NonNegativeQuotient(20.0 * FeeBound(p), p.estimatedFee * 1.1);
  }

  function Dropped(p: Params): Params
    requires p.utxos != []
  {
    p.(utxos := p.utxos[..|p.utxos| - 1])
  }

  function RawTransaction(env: Chain, p: Params): Outcome
    decreases |p.utxos|, Fuel(p)
  {
    match Attempt(env, p)
    case Ok(b) => Success(b)
    case Err(TxPriceTooHigh(_)) =>
      PriceErrorBound(env, p);
      RaiseDropsFuel(p);
      RawTransaction(env, Raised(p))
    case Err(TxTooLarge(_)) => if |p.utxos| > 1 then RawTransaction(env, Dropped(p)) else NoReturn
    case Err(e) => Failed(e)
  }
}
