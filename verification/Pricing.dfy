// From a chosen batch and a chosen selection to the price of the transaction that is built.
module Pricing {
  import opened Common
  import opened Models
  import opened Sums
  import opened TxSize
  import opened BatchSelection
  import opened CoinSelection
  import opened TxBuilder
  import opened BuildTheorems

  // Every input type is one of the five standard ones.
  predicate StandardInputs(utxos: seq<Utxo>) {
    forall i :: 0 <= i < |utxos| ==> utxos[i].receiverType != OtherType
  }

  // Every input is spent through its witness alone.
  predicate WitnessInputs(utxos: seq<Utxo>) {
    forall i :: 0 <= i < |utxos| ==> utxos[i].receiverType in {P2WPKH, P2WSH, P2TR}
  }

  // The address decodes to a P2WPKH script.
  predicate PaysP2wpkh(net: Net, address: string) {
    net(address).Some? && net(address).value.kind == P2WPKH && net(address).value.length == 22
  }

  // All receivers and the change address decode to standard scripts; change goes to P2WPKH.
  ghost predicate StandardReceivers(net: Net, ws: seq<Withdraw>, changeAddress: string) {
    && (forall i :: 0 <= i < |ws| ==> net(ws[i].to).Some? && Standard(net(ws[i].to).value))
    && PaysP2wpkh(net, changeAddress)
  }

  // The builder's parameters for a batch paid by a selection.
  ghost predicate WithdrawParams(p: Params, batch: Batch, s: Selection) {
    && p.utxos == s.utxos && p.withdrawals == batch.withdrawals && p.tasks == []
    && p.changeAmount == s.changeAmount && p.estimatedFee == s.estimatedFee
    && p.witnessSize == s.witnessSize && p.networkFee == batch.price
    && p.utxoAmount == s.total && p.withdrawAmount == s.withdrawAmount == batch.amount
  }

  function ReceiverTypes(net: Net, ws: seq<Withdraw>): seq<WalletType> {
    seq(|ws|, i requires 0 <= i < |ws| => GetAddressType(net, ws[i].to))
  }

  // ---------- Sizes ----------

  // What the estimate counts for inputs beyond their unsigned size of 41 bytes each.
  function LegacyExcess(t: WalletType): int {
    InputBase(t) - 41
  }

  lemma {:induction false} InputsSize(utxos: seq<Utxo>)
    ensures Sum(InputBase, Types(utxos)) == 41 * |utxos| + Sum(LegacyExcess, Types(utxos))
  {
    if utxos != [] {
      InputsSize(utxos[..|utxos| - 1]);
      assert Types(utxos)[..|utxos| - 1] == Types(utxos[..|utxos| - 1]);
    }
  }

  lemma {:induction false} ExcessZeroIffWitness(utxos: seq<Utxo>)
    requires StandardInputs(utxos)
    ensures Sum(LegacyExcess, Types(utxos)) >= 0
    ensures Sum(LegacyExcess, Types(utxos)) == 0 <==> WitnessInputs(utxos)
  {
    if utxos != [] {
      var front := utxos[..|utxos| - 1];
      ExcessZeroIffWitness(front);
      assert Types(utxos)[..|utxos| - 1] == Types(front);
      assert WitnessInputs(utxos) <==> WitnessInputs(front) && utxos[|utxos| - 1].receiverType in {P2WPKH, P2WSH, P2TR};
    }
  }

  lemma {:induction false} WithdrawOutputsSize(net: Net, ws: seq<Withdraw>, fee: int, dust: int)
    requires WithdrawOutputs(net, ws, fee, dust).Ok?
    requires forall i :: 0 <= i < |ws| ==> net(ws[i].to).Some? && Standard(net(ws[i].to).value)
    ensures Sum(OutputSize, WithdrawOutputs(net, ws, fee, dust).value) == Sum(OutputBase, ReceiverTypes(net, ws))
  {
    if ws != [] {
      var front := ws[..|ws| - 1];
      var w := ws[|ws| - 1];
      WithdrawOutputsSize(net, front, fee, dust);
      assert ReceiverTypes(net, ws)[..|ws| - 1] == ReceiverTypes(net, front);
      var last := TxOut(w.amount - fee, net(w.to).value);
      SumSnoc(OutputSize, WithdrawOutputs(net, front, fee, dust).value, last);
      assert OutputSize(last) == OutputBase(last.script.kind);
    }
  }

  lemma ChangeSize(net: Net, changeAddress: string, val: int, dust: int)
    requires ChangeOutputs(net, changeAddress, val, dust).Ok? && PaysP2wpkh(net, changeAddress)
    ensures var c := ChangeOutputs(net, changeAddress, val, dust).value;
            |c| == (if val > 0 then 1 else 0) && Sum(OutputSize, c) == 31 * |c|
  {
    if val > 0 {
      SumSnoc(OutputSize, [], TxOut(val, net(changeAddress).value));
      assert [] + [TxOut(val, net(changeAddress).value)] == ChangeOutputs(net, changeAddress, val, dust).value;
    }
  }

  // What the outputs of a batch add to the serialised size.
  lemma BatchOutputsSize(env: Chain, p: Params)
    requires Outputs(env.net, p).Ok? && p.tasks == [] && p.withdrawals != []
    requires StandardReceivers(env.net, p.withdrawals, p.changeAddress)
    ensures var outs, change := Outputs(env.net, p).value, if p.changeAmount > 0 then 1 else 0;
            && |outs| == |p.withdrawals| + change
            && Sum(OutputSize, outs) == Sum(OutputBase, ReceiverTypes(env.net, p.withdrawals)) + 31 * change
  {
    var fee, dust := CalculateFees(p).0, GetDustAmount(p.networkFee);
    var a := WithdrawOutputs(env.net, p.withdrawals, fee, dust).value;
    var c := ChangeOutputs(env.net, p.changeAddress, p.changeAmount, dust).value;
    assert Outputs(env.net, p).value == a + [] + c == a + c;
    WithdrawOutputsSize(env.net, p.withdrawals, fee, dust);
    ChangeSize(env.net, p.changeAddress, p.changeAmount, dust);
    SumConcat(OutputSize, a, c);
  }

  // For standard scripts the serialised size is the estimate's base size without the legacy excess.
  lemma SerializedSize(env: Chain, p: Params)
    requires Outputs(env.net, p).Ok? && p.tasks == [] && p.withdrawals != [] && p.changeAmount >= 0
    requires StandardReceivers(env.net, p.withdrawals, p.changeAddress)
    requires |p.utxos| < 0xfd && |p.withdrawals| + 1 < 0xfd
    ensures var n := |p.withdrawals|;
            SerializeSizeNoWitness(Tx(OutPoints(p.utxos), Outputs(env.net, p).value))
            == BaseSize(ReceiverTypes(env.net, p.withdrawals), if p.changeAmount > 0 then n + 1 else n, Types(p.utxos))
               - Sum(LegacyExcess, Types(p.utxos))
  {
    InputsSize(p.utxos);
    BatchOutputsSize(env, p);
  }

  // ---------- Prices ----------

  lemma ScaledQuotient(e: real, v: real, b: real, fee: real)
    requires b > 0.0 && e == v * fee
    ensures v == b ==> e / b == fee
    ensures v > b && fee > 0.0 ==> e / b > fee
  {
    var q := e / b;
    assert q * b == v * fee;
    if v == b && q != fee {
      if q < fee { StrictMul(q, fee, b); } else { StrictMul(fee, q, b); }
    }
    if v > b && fee > 0.0 && q <= fee {
      MulMonotone(q, fee, b);
      StrictMul(b, v, fee);
    }
  }

  lemma WitnessNonNegative(utxos: seq<Utxo>)
    ensures WitnessSize(Types(utxos)) >= 0
  {
    forall t ensures InputWitness(t) >= 0 {
    }
    SumNonNegative(InputWitness, Types(utxos));
  }

  // Preconditions shared by the price theorems: a batch paid by a selection over standard scripts.
  ghost predicate Chosen(env: Chain, p: Params, batch: Batch, s: Selection) {
    && WithdrawParams(p, batch, s) && batch.withdrawals != []
    && batch.receiverTypes == ReceiverTypes(env.net, batch.withdrawals)
    && PricedBy(s, batch.receiverTypes, batch.price, |batch.withdrawals|)
    && StandardReceivers(env.net, p.withdrawals, p.changeAddress)
    && StandardInputs(s.utxos)
    && |s.utxos| < 0xfd && |batch.withdrawals| + 1 < 0xfd
  }

  ghost predicate Priced(env: Chain, p: Params, batch: Batch, s: Selection) {
    Chosen(env, p, batch, s) && Outputs(env.net, p).Ok?
  }

  function BuiltTx(env: Chain, p: Params): Tx
    requires Outputs(env.net, p).Ok?
  {
    Tx(OutPoints(p.utxos), Outputs(env.net, p).value)
  }

  // The virtual size that the builder's price check uses.
  function SignedSize(p: Params, tx: Tx): real {
    SerializeSizeNoWitness(tx) as real + p.witnessSize as real / 4.0
  }

  lemma PriceIsQuotient(p: Params, tx: Tx)
    ensures SignedSize(p, tx) > 0.0 && EffectivePrice(p, tx) == p.estimatedFee / SignedSize(p, tx)
  {
    SizePositive(tx);
  }

  // The estimated virtual size of a selection with its change output, if any.
  function EstimatedSize(batch: Batch, s: Selection): real {
    VirtualSize(batch.receiverTypes, OutputCount(batch, s), Types(s.utxos))
  }

  function OutputCount(batch: Batch, s: Selection): nat {
    |batch.withdrawals| + if s.changeAmount > 0 then 1 else 0
  }

  // What the estimate counts for the scripts of legacy inputs, which are not yet serialised.
  function Excess(s: Selection): int {
    Sum(LegacyExcess, Types(s.utxos))
  }

  // The leftover amount that is charged as fee.
  function Leftover(s: Selection): real {
    if s.changeAmount > 0 then 0.0 else (s.total - s.withdrawAmount) as real
  }

  // The serialised size of a choice, as its types alone determine it.
  function UnsignedSize(batch: Batch, s: Selection): int {
    BaseSize(batch.receiverTypes, OutputCount(batch, s), Types(s.utxos)) - Excess(s)
  }

  lemma UnsignedSizeIs(env: Chain, p: Params, batch: Batch, s: Selection)
    requires Priced(env, p, batch, s)
    ensures SerializeSizeNoWitness(BuiltTx(env, p)) == UnsignedSize(batch, s)
  {
    SelectionFee(batch, s);
    SerializedSize(env, p);
  }

  // The signed size is the estimated size without the legacy excess.
  lemma SignedSizeIs(env: Chain, p: Params, batch: Batch, s: Selection)
    requires Priced(env, p, batch, s)
    ensures SignedSize(p, BuiltTx(env, p)) == EstimatedSize(batch, s) - Excess(s) as real > 0.0
    ensures Excess(s) >= 0 && (Excess(s) == 0 <==> WitnessInputs(s.utxos))
  {
    UnsignedSizeIs(env, p, batch, s);
    ExcessZeroIffWitness(s.utxos);
    SizePositive(BuiltTx(env, p));
  }

  // What a virtual size costs at a price, and a leftover on top.
  function FeeAt(size: real, price: real, leftover: real): real {
    size * price + leftover
  }

  lemma SelectionFee(batch: Batch, s: Selection)
    requires PricedBy(s, batch.receiverTypes, batch.price, |batch.withdrawals|)
    ensures s.changeAmount >= 0
    ensures s.estimatedFee == FeeAt(EstimatedSize(batch, s), batch.price as real, Leftover(s))
  {
  }

  // With a change output the effective price is the network fee exactly when no input is a legacy input;
  // legacy inputs make it higher, since their scripts are estimated but not yet serialised.
  lemma PriceWithChange(env: Chain, p: Params, batch: Batch, s: Selection)
    requires Priced(env, p, batch, s) && s.changeAmount > 0
    ensures WitnessInputs(s.utxos) ==> EffectivePrice(p, BuiltTx(env, p)) == batch.price as real
    ensures batch.price > 0 && !WitnessInputs(s.utxos) ==> EffectivePrice(p, BuiltTx(env, p)) > batch.price as real
  {
    SignedSizeIs(env, p, batch, s);
    SelectionFee(batch, s);
    PriceIsQuotient(p, BuiltTx(env, p));
    ScaledQuotient(p.estimatedFee, EstimatedSize(batch, s), SignedSize(p, BuiltTx(env, p)), batch.price as real);
  }

  lemma PriceParts(env: Chain, p: Params, batch: Batch, s: Selection) returns (e: real, b: real)
    requires Priced(env, p, batch, s)
    ensures b > 0.0 && EffectivePrice(p, BuiltTx(env, p)) == e / b
    ensures e == FeeAt(EstimatedSize(batch, s), batch.price as real, Leftover(s))
    ensures b == EstimatedSize(batch, s) - Excess(s) as real
  {
    e, b := p.estimatedFee, SignedSize(p, BuiltTx(env, p));
    SignedSizeIs(env, p, batch, s);
    SelectionFee(batch, s);
    PriceIsQuotient(p, BuiltTx(env, p));
  }

  // Whatever the inputs, the price spreads the estimated fee and the leftover over what is signed.
  lemma PriceInGeneral(env: Chain, p: Params, batch: Batch, s: Selection)
    requires Priced(env, p, batch, s)
    ensures EstimatedSize(batch, s) >= EstimatedSize(batch, s) - Excess(s) as real > 0.0
    ensures EffectivePrice(p, BuiltTx(env, p))
            == FeeAt(EstimatedSize(batch, s), batch.price as real, Leftover(s)) / (EstimatedSize(batch, s) - Excess(s) as real)
  {
    SignedSizeIs(env, p, batch, s);
    SelectionFee(batch, s);
    PriceIsQuotient(p, BuiltTx(env, p));
  }

  // For witness inputs each virtual byte pays its share of the leftover on top of the network fee.
  lemma PriceWithLeftover(env: Chain, p: Params, batch: Batch, s: Selection)
    requires Priced(env, p, batch, s) && WitnessInputs(s.utxos)
    ensures EstimatedSize(batch, s) > 0.0
    ensures EffectivePrice(p, BuiltTx(env, p)) == batch.price as real + Leftover(s) / EstimatedSize(batch, s)
  {
    var e, b := PriceParts(env, p, batch, s);
    ExcessZeroIffWitness(s.utxos);
    LeftoverForm(e, b, EstimatedSize(batch, s), Leftover(s), batch.price as real);
  }

  lemma LeftoverForm(e: real, size: real, v: real, c: real, fee: real)
    requires size == v > 0.0 && e == FeeAt(v, fee, c)
    ensures e / size == fee + c / v
  {
    AddedQuotient(e, v, c, fee);
  }

  lemma AddedQuotient(e: real, v: real, c: real, fee: real)
    requires v > 0.0 && e == v * fee + c
    ensures e / v == fee + c / v
  {
    ScaledQuotient(e - c, v, v, fee);
    assert e / v == (e - c) / v + c / v;
  }

  // ---------- Price retries ----------

  lemma {:induction false} PaidAboveDust(net: Net, ws: seq<Withdraw>, fee: int, dust: int)
    requires forall i :: 0 <= i < |ws| ==> net(ws[i].to).Some?
    ensures WithdrawOutputs(net, ws, fee, dust).Ok? <==> forall i :: 0 <= i < |ws| ==> ws[i].amount - fee > dust
  {
    if ws != [] {
      PaidAboveDust(net, ws[..|ws| - 1], fee, dust);
    }
  }

  // The outputs of a choice can be built exactly when its fee leaves every withdrawal above dust.
  ghost predicate AllAboveDust(p: Params) {
    forall i :: 0 <= i < |p.withdrawals| ==> p.withdrawals[i].amount - CalculateFees(p).0 > GetDustAmount(p.networkFee)
  }

  lemma OutputsIff(env: Chain, p: Params, batch: Batch, s: Selection)
    requires Chosen(env, p, batch, s)
    ensures Outputs(env.net, p).Ok? <==> AllAboveDust(p)
  {
    PaidAboveDust(env.net, p.withdrawals, CalculateFees(p).0, GetDustAmount(p.networkFee));
  }

  // A member refuses when the fee exceeds what it pays for the signed size.
  ghost predicate SomeMemberRefuses(batch: Batch, s: Selection) {
    exists i :: 0 <= i < |batch.withdrawals| && Refused(batch, s, batch.withdrawals[i].txPrice)
  }

  predicate Refused(batch: Batch, s: Selection, txPrice: nat) {
    Exceeds(EstimatedSize(batch, s), batch.price as real, Leftover(s), Excess(s) as real, txPrice as real)
  }

  // The fee for an estimated size is more than a price for that size without an excess.
  predicate Exceeds(size: real, price: real, leftover: real, excess: real, accepted: real) {
    FeeAt(size, price, leftover) > accepted * (size - excess)
  }

  lemma QuotientExceeds(e: real, b: real, x: real)
    requires b > 0.0
    ensures e / b > x <==> e > x * b
  {
    var q := e / b;
    assert q * b == e;
    if q > x {
      StrictMul(x, q, b);
    } else {
      MulMonotone(q, x, b);
    }
  }

  lemma RefusalIs(env: Chain, p: Params, batch: Batch, s: Selection)
    requires Priced(env, p, batch, s)
    ensures Refuses(p.withdrawals, EffectivePrice(p, BuiltTx(env, p))).Some? <==> SomeMemberRefuses(batch, s)
  {
    var price := EffectivePrice(p, BuiltTx(env, p));
    forall i | 0 <= i < |batch.withdrawals|
      ensures price > batch.withdrawals[i].txPrice as real <==> Refused(batch, s, batch.withdrawals[i].txPrice)
    {
      RefusedIs(env, p, batch, s, batch.withdrawals[i].txPrice);
    }
    RefusesIs(batch, s, price);
  }

  lemma RefusedIs(env: Chain, p: Params, batch: Batch, s: Selection, txPrice: nat)
    requires Priced(env, p, batch, s)
    ensures EffectivePrice(p, BuiltTx(env, p)) > txPrice as real <==> Refused(batch, s, txPrice)
  {
    var e, b := PriceParts(env, p, batch, s);
    ExceedsIs(EstimatedSize(batch, s), batch.price as real, Leftover(s), Excess(s) as real, txPrice as real, e, b);
  }

  lemma ExceedsIs(size: real, price: real, leftover: real, excess: real, accepted: real, e: real, b: real)
    requires e == FeeAt(size, price, leftover) && b == size - excess > 0.0
    ensures e / b > accepted <==> Exceeds(size, price, leftover, excess, accepted)
  {
    QuotientExceeds(e, b, accepted);
  }

  lemma RefusesIs(batch: Batch, s: Selection, price: real)
    requires forall i :: 0 <= i < |batch.withdrawals| ==>
               (price > batch.withdrawals[i].txPrice as real <==> Refused(batch, s, batch.withdrawals[i].txPrice))
    ensures Refuses(batch.withdrawals, price).Some? <==> SomeMemberRefuses(batch, s)
  {
  }

  // A price retry starts exactly when the outputs can be built and a member refuses, both decided by the
  // estimate before anything is built.
  lemma PriceRetryIff(env: Chain, p: Params, batch: Batch, s: Selection)
    requires Chosen(env, p, batch, s) && ValidIds(env, p.utxos) && Fits(env, UnsignedSize(batch, s))
    ensures (exists id :: Attempt(env, p) == Err(TxPriceTooHigh(id))) <==> AllAboveDust(p) && SomeMemberRefuses(batch, s)
  {
    OutputsIff(env, p, batch, s);
    if Outputs(env.net, p).Ok? {
      UnsignedSizeIs(env, p, batch, s);
      RefusalIs(env, p, batch, s);
      RetryIsRefusal(env, p, BuiltTx(env, p));
    }
  }

  lemma RetryIsRefusal(env: Chain, p: Params, tx: Tx)
    requires ValidIds(env, p.utxos) && Outputs(env.net, p) == Ok(tx.outputs) && tx.inputs == OutPoints(p.utxos)
    requires Fits(env, SerializeSizeNoWitness(tx))
    ensures (exists id :: Attempt(env, p) == Err(TxPriceTooHigh(id))) <==> Refuses(p.withdrawals, EffectivePrice(p, tx)).Some?
  {
    var refused := Refuses(p.withdrawals, EffectivePrice(p, tx));
    if refused.Some? {
      assert Attempt(env, p) == Err(TxPriceTooHigh(refused.value));
    }
  }

  // The price of a batch that pays for witness inputs with change is the band's fee, which every member accepts.
  lemma BandPriceAccepted(env: Chain, p: Params, batch: Batch, s: Selection,
                          all: seq<Withdraw>, fee: NetworkFee, policy: Policy, band: Band, id: nat)
    requires Priced(env, p, batch, s) && s.changeAmount > 0 && WitnessInputs(s.utxos)
    requires BatchOfBand(all, fee, policy, env.net, band, batch)
    ensures Attempt(env, p) != Err(TxPriceTooHigh(id))
    ensures forall i :: 0 <= i < |p.withdrawals| ==>
              EffectivePrice(p, BuiltTx(env, p)) <= p.withdrawals[i].txPrice as real
  {
    PriceWithChange(env, p, batch, s);
    forall i | 0 <= i < |batch.withdrawals| ensures batch.withdrawals[i].txPrice >= batch.price {
      BatchMembersPay(all, fee, band, policy.maxVout, batch.withdrawals, i);
    }
    AcceptedPrice(env, p, BuiltTx(env, p), id);
  }

  lemma AcceptedPrice(env: Chain, p: Params, tx: Tx, id: nat)
    requires Outputs(env.net, p) == Ok(tx.outputs) && tx.inputs == OutPoints(p.utxos)
    requires forall i :: 0 <= i < |p.withdrawals| ==> EffectivePrice(p, tx) <= p.withdrawals[i].txPrice as real
    ensures Attempt(env, p) != Err(TxPriceTooHigh(id))
  {
    assert Refuses(p.withdrawals, EffectivePrice(p, tx)).None?;
  }

  // A selection's change is zero or above dust, so building never ends in the change-dust error.
  lemma ChangeIsNeverDust(env: Chain, p: Params, batch: Batch, s: Selection, value: int)
    requires WithdrawParams(p, batch, s) && batch.withdrawals != []
    requires PricedBy(s, batch.receiverTypes, batch.price, |batch.withdrawals|)
    ensures RawTransaction(env, p) != Failed(ChangeDustAmount(value))
  {
    NoChangeDust(env, p, value);
  }

  // ---------- Size limits ----------

  // The address decodes to a script no longer than the longest standard one, if at all.
  predicate ShortScript(net: Net, address: string) {
    net(address).Some? ==> net(address).value.length <= 34
  }

  ghost predicate ShortReceivers(net: Net, ws: seq<Withdraw>) {
    forall i :: 0 <= i < |ws| ==> ShortScript(net, ws[i].to)
  }

  ghost predicate ShortTimelocks(net: Net, tasks: seq<Task>) {
    forall i :: 0 <= i < |tasks| ==> ShortScript(net, tasks[i].timelockAddress)
  }

  // No address that the parameters pay to has a longer script.
  ghost predicate ShortScripts(net: Net, p: Params) {
    ShortReceivers(net, p.withdrawals) && ShortTimelocks(net, p.tasks) && ShortScript(net, p.changeAddress)
  }

  predicate ScriptsUpTo(outs: seq<TxOut>, bound: nat) {
    forall i :: 0 <= i < |outs| ==> outs[i].script.length <= bound
  }

  lemma {:induction false} OutputsSizeBound(outs: seq<TxOut>, bound: nat)
    requires ScriptsUpTo(outs, bound) && bound < 0xfd
    ensures 9 * |outs| <= Sum(OutputSize, outs) <= (9 + bound) * |outs|
  {
    if outs != [] {
      OutputsSizeBound(outs[..|outs| - 1], bound);
    }
  }

  // At most 51 inputs and 33 outputs stay within 3520 bytes.
  lemma BatchSizeBound(tx: Tx)
    requires 1 <= |tx.inputs| <= 51 && 1 <= |tx.outputs| <= 33 && ScriptsUpTo(tx.outputs, 34)
    ensures 60 <= SerializeSizeNoWitness(tx) <= 3520
  {
    OutputsSizeBound(tx.outputs, 34);
  }

  // 200 inputs into one P2WPKH output stay within 8241 bytes.
  lemma ConsolidationSizeBound(tx: Tx)
    requires 1 <= |tx.inputs| <= 200 && |tx.outputs| == 1 && ScriptsUpTo(tx.outputs, 22)
    ensures 60 <= SerializeSizeNoWitness(tx) <= 8241
  {
    OutputsSizeBound(tx.outputs, 22);
  }

  lemma {:induction false} WithdrawScripts(net: Net, ws: seq<Withdraw>, fee: int, dust: int)
    requires ShortReceivers(net, ws) && WithdrawOutputs(net, ws, fee, dust).Ok?
    ensures ScriptsUpTo(WithdrawOutputs(net, ws, fee, dust).value, 34)
  {
    if ws != [] {
      WithdrawScripts(net, ws[..|ws| - 1], fee, dust);
    }
  }

  lemma {:induction false} TaskScripts(net: Net, tasks: seq<Task>)
    requires ShortTimelocks(net, tasks) && TaskOutputs(net, tasks).Ok?
    ensures ScriptsUpTo(TaskOutputs(net, tasks).value, 34)
  {
    if tasks != [] {
      TaskScripts(net, tasks[..|tasks| - 1]);
    }
  }

  lemma OutputScripts(net: Net, p: Params)
    requires ShortScripts(net, p) && Outputs(net, p).Ok?
    ensures ScriptsUpTo(Outputs(net, p).value, 34)
    ensures |p.withdrawals| + |p.tasks| <= |Outputs(net, p).value| <= |p.withdrawals| + |p.tasks| + 1
  {
    WithdrawScripts(net, p.withdrawals, CalculateFees(p).0, GetDustAmount(p.networkFee));
    TaskScripts(net, p.tasks);
  }

  // Parameters within the relayer's batch limits, or those of a consolidation.
  ghost predicate SmallEnough(env: Chain, p: Params) {
    env.minTxSize <= 60 &&
    if p.withdrawals == [] && p.tasks == [] then
      && env.maxTxSize >= 8241 && 1 <= |p.utxos| <= 200 && p.estimatedFee == 0.0 && p.changeAmount > 0
      && PaysP2wpkh(env.net, p.changeAddress)
    else
      env.maxTxSize >= 3520 && 1 <= |p.utxos| <= 51 && |p.withdrawals| + |p.tasks| <= 32 && ShortScripts(env.net, p)
  }

  lemma SmallFits(env: Chain, p: Params)
    requires SmallEnough(env, p) && Outputs(env.net, p).Ok?
    ensures Fits(env, SerializeSizeNoWitness(BuiltTx(env, p)))
  {
    if p.withdrawals == [] && p.tasks == [] {
      ConsolidationSizeBound(BuiltTx(env, p));
    } else {
      OutputScripts(env.net, p);
      BatchSizeBound(BuiltTx(env, p));
    }
  }

  lemma NeverTooLarge(env: Chain, p: Params)
    requires SmallEnough(env, p)
    ensures forall size :: Attempt(env, p) != Err(TxTooLarge(size))
  {
    AttemptTooLarge(env, p);
    assert p.utxos[..|p.utxos|] == p.utxos;
    if Outputs(env.net, p).Ok? {
      SmallFits(env, p);
    }
  }

  // Within the limits building always returns, and a transaction it returns has all the inputs.
  lemma SmallKeepsInputs(env: Chain, p: Params)
    requires SmallEnough(env, p)
    ensures !RawTransaction(env, p).NoReturn?
    ensures RawTransaction(env, p).Success? ==>
              Outputs(env.net, p).Ok? && RawTransaction(env, p).built == Built(BuiltTx(env, p), CalculateFees(p).0)
  {
    SmallReturns(env, p);
    NeverTooLarge(env, p);
    assert p.utxos[..|p.utxos|] == p.utxos;
    if RawTransaction(env, p).Success? {
      var k := ReturnedTransaction(env, p);
      AttemptOutputs(env, p, k, RawTransaction(env, p).built);
    }
  }

  lemma SmallReturns(env: Chain, p: Params)
    requires SmallEnough(env, p)
    ensures !RawTransaction(env, p).NoReturn?
  {
    NoReturnIff(env, p);
    if NeverFits(env, p) {
      SmallFits(env, p);
      FullPrefix(env, p.utxos, Outputs(env.net, p).value);
    }
  }

  lemma FullPrefix(env: Chain, utxos: seq<Utxo>, outs: seq<TxOut>)
    requires NoPrefixFits(env, utxos, outs)
    ensures !Fits(env, SerializeSizeNoWitness(Tx(OutPoints(utxos), outs)))
  {
    assert utxos[..|utxos|] == utxos;
    assert !Fits(env, SizeWith(utxos, outs, |utxos|));
  }

  // ---------- How building a batch ends ----------

  // Decided by the estimate: no member becomes dust and none refuses.
  ghost predicate Affordable(p: Params, batch: Batch, s: Selection) {
    AllAboveDust(p) && !SomeMemberRefuses(batch, s)
  }

  lemma {:induction false} DustOnly(net: Net, ws: seq<Withdraw>, fee: int, dust: int)
    requires forall i :: 0 <= i < |ws| ==> net(ws[i].to).Some?
    ensures WithdrawOutputs(net, ws, fee, dust).Err? ==> WithdrawOutputs(net, ws, fee, dust).error.WithdrawDustAmount?
  {
    if ws != [] {
      DustOnly(net, ws[..|ws| - 1], fee, dust);
    }
  }

  lemma UnaffordableAttempt(env: Chain, p: Params, batch: Batch, s: Selection)
    requires Chosen(env, p, batch, s) && ValidIds(env, p.utxos) && !AllAboveDust(p)
    ensures RawTransaction(env, p).Failed? && RawTransaction(env, p).error.WithdrawDustAmount?
  {
    OutputsIff(env, p, batch, s);
    DustOnly(env.net, p.withdrawals, CalculateFees(p).0, GetDustAmount(p.networkFee));
    SelectionFee(batch, s);
    DustFirst(env, p);
  }

  lemma DustFirst(env: Chain, p: Params)
    requires ValidIds(env, p.utxos)
    requires var a := WithdrawOutputs(env.net, p.withdrawals, CalculateFees(p).0, GetDustAmount(p.networkFee));
             a.Err? && a.error.WithdrawDustAmount?
    ensures RawTransaction(env, p).Failed? && RawTransaction(env, p).error.WithdrawDustAmount?
  {
  }

  lemma BuiltAttempt(env: Chain, p: Params)
    requires ValidIds(env, p.utxos) && Outputs(env.net, p).Ok? && Fits(env, SerializeSizeNoWitness(BuiltTx(env, p)))
    ensures if Refuses(p.withdrawals, EffectivePrice(p, BuiltTx(env, p))).None?
            then RawTransaction(env, p) == Success(Built(BuiltTx(env, p), CalculateFees(p).0))
            else RawTransaction(env, p).Failed? && RawTransaction(env, p).error.WithdrawDustAmount?
  {
    if Refuses(p.withdrawals, EffectivePrice(p, BuiltTx(env, p))).Some? {
      PriceRetryEndsInDust(env, p);
    }
  }

  // Building a batch within the size limits returns its transaction when the batch is affordable, and ends in the
  // dust error otherwise, whether some output is dust at once or a price retry made it so.
  lemma BuildIff(env: Chain, p: Params, batch: Batch, s: Selection)
    requires Chosen(env, p, batch, s) && ValidIds(env, p.utxos) && SmallEnough(env, p)
    ensures if Affordable(p, batch, s)
            then Outputs(env.net, p).Ok? && RawTransaction(env, p) == Success(Built(BuiltTx(env, p), CalculateFees(p).0))
            else RawTransaction(env, p).Failed? && RawTransaction(env, p).error.WithdrawDustAmount?
  {
    OutputsIff(env, p, batch, s);
    if AllAboveDust(p) {
      SmallFits(env, p);
      RefusalIs(env, p, batch, s);
      BuiltAttempt(env, p);
    } else {
      UnaffordableAttempt(env, p, batch, s);
    }
  }

  // Such a batch is built in one attempt when the limits leave room for it.
  lemma NoPriceRetry(env: Chain, p: Params, batch: Batch, s: Selection,
                     all: seq<Withdraw>, fee: NetworkFee, policy: Policy, band: Band)
    requires Chosen(env, p, batch, s) && s.changeAmount > 0 && WitnessInputs(s.utxos) && SmallEnough(env, p)
    requires BatchOfBand(all, fee, policy, env.net, band, batch)
    ensures RawTransaction(env, p) == match Attempt(env, p) case Ok(b) => Success(b) case Err(e) => Failed(e)
  {
    var a := Attempt(env, p);
    SmallAttempt(env, p);
    if a.Err? && a.error.TxPriceTooHigh? {
      BandPriceAccepted(env, p, batch, s, all, fee, policy, band, a.error.requestId);
    }
  }

  lemma SmallAttempt(env: Chain, p: Params)
    requires SmallEnough(env, p)
    ensures Attempt(env, p).Err? ==> !Attempt(env, p).error.TxTooLarge?
  {
    if Outputs(env.net, p).Ok? {
      SmallFits(env, p);
    }
  }

  // Witness inputs with change: nobody refuses, so dust alone decides.
  lemma NobodyRefuses(env: Chain, p: Params, batch: Batch, s: Selection,
                      all: seq<Withdraw>, fee: NetworkFee, policy: Policy, band: Band)
    requires Chosen(env, p, batch, s) && s.changeAmount > 0 && WitnessInputs(s.utxos)
    requires BatchOfBand(all, fee, policy, env.net, band, batch)
    ensures !SomeMemberRefuses(batch, s)
  {
    ExcessZeroIffWitness(s.utxos);
    forall i | 0 <= i < |batch.withdrawals| ensures !Refused(batch, s, batch.withdrawals[i].txPrice) {
      BatchMembersPay(all, fee, band, policy.maxVout, batch.withdrawals, i);
      NotRefused(batch, s, batch.withdrawals[i].txPrice);
    }
  }

  lemma NotRefused(batch: Batch, s: Selection, txPrice: nat)
    requires s.changeAmount > 0 && Excess(s) == 0 && txPrice >= batch.price
    ensures !Refused(batch, s, txPrice)
  {
    SizeNonNegative(batch, s);
    NothingExceeds(EstimatedSize(batch, s), batch.price as real, txPrice as real);
  }

  lemma NothingExceeds(size: real, price: real, accepted: real)
    requires size >= 0.0 && price <= accepted
    ensures !Exceeds(size, price, 0.0, 0.0, accepted)
  {
    MulGrows(size, price, accepted);
  }

  lemma MulGrows(v: real, x: real, y: real)
    requires v >= 0.0 && x <= y
    ensures v * x <= y * v
  {
  }

  lemma SizeNonNegative(batch: Batch, s: Selection)
    ensures EstimatedSize(batch, s) >= 0.0
  {
    forall t ensures InputBase(t) >= 0 && OutputBase(t) >= 0 {
    }
    SumNonNegative(InputBase, Types(s.utxos));
    SumNonNegative(OutputBase, batch.receiverTypes);
    WitnessNonNegative(s.utxos);
  }
}
