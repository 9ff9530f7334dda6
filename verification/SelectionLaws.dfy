// What sizes, selections and consolidations come to, in numbers.
module SelectionLaws {
  import opened Common
  import opened Models
  import opened Sums
  import opened TxSize
  import opened CoinSelection

  // ---------- Sizes ----------

  // A transaction without inputs and receivers takes 10 bytes.
  lemma EmptySize()
    ensures BaseSize([], 0, []) == 10 && WitnessSize([]) == 0
  {
  }

  // What one more input adds to the estimate.
  lemma OneMoreInput(receivers: seq<WalletType>, outputs: int, inputs: seq<WalletType>, t: WalletType)
    ensures BaseSize(receivers, outputs, inputs + [t]) - BaseSize(receivers, outputs, inputs)
            == match t case P2WPKH => 41 case P2WSH => 41 case P2TR => 41 case P2PKH => 148 case P2SH => 296 case OtherType => 0
    ensures t !in {P2WPKH, P2WSH, P2TR} ==> WitnessSize(inputs + [t]) == WitnessSize(inputs)
    ensures t in {P2WPKH, P2WSH, P2TR} ==>
              WitnessSize(inputs + [t]) - WitnessSize(inputs)
              == (if t == P2WPKH then 108 else if t == P2WSH then 132 else 66) + (if WitnessSize(inputs) == 0 then 2 else 0)
  {
    SumSnoc(InputBase, inputs, t);
    SumSnoc(InputWitness, inputs, t);
    SumNonNegative(InputWitness, inputs);
  }

  // What one more receiver adds, when no output is left without one.
  lemma OneMoreReceiver(receivers: seq<WalletType>, outputs: int, inputs: seq<WalletType>, t: WalletType)
    ensures outputs <= |receivers| ==>
              BaseSize(receivers + [t], outputs, inputs) - BaseSize(receivers, outputs, inputs)
              == match t case P2WPKH => 31 case P2PKH => 34 case P2SH => 32 case P2WSH => 43 case P2TR => 43 case OtherType => 0
    ensures outputs > |receivers| ==>
              BaseSize(receivers, outputs, inputs) == BaseSize(receivers, |receivers|, inputs) + 31 * (outputs - |receivers|)
  {
    SumSnoc(OutputBase, receivers, t);
  }

  // Four units of witness count as one virtual byte.
  lemma VirtualInNumbers(receivers: seq<WalletType>, outputs: int, inputs: seq<WalletType>)
    ensures 4.0 * VirtualSize(receivers, outputs, inputs)
            == (4 * BaseSize(receivers, outputs, inputs) + WitnessSize(inputs)) as real
  {
  }

  function ScriptBytes(o: TxOut): int {
    o.script.length
  }

  // Without witnesses a transaction takes 10 bytes, 41 for each input, and 9 and its script for each output, as long as
  // counts and scripts are below 253.
  lemma {:induction false} OutputsInNumbers(outs: seq<TxOut>)
    requires forall i :: 0 <= i < |outs| ==> outs[i].script.length < 253
    ensures Sum(OutputSize, outs) == 9 * |outs| + Sum(ScriptBytes, outs)
    decreases |outs|
  {
    if outs != [] {
      OutputsInNumbers(outs[..|outs| - 1]);
    }
  }

  lemma SerializedInNumbers(tx: Tx)
    requires |tx.inputs| < 253 && |tx.outputs| < 253
    requires forall i :: 0 <= i < |tx.outputs| ==> tx.outputs[i].script.length < 253
    ensures SerializeSizeNoWitness(tx) == 10 + 41 * |tx.inputs| + 9 * |tx.outputs| + Sum(ScriptBytes, tx.outputs)
  {
    OutputsInNumbers(tx.outputs);
  }

  // ---------- Selections ----------

  // At most 10 inputs, or 50 above 50 bitcoin; whatever so many coins can pay is paid, with as few as possible.
  lemma CoreInNumbers(pool: seq<Utxo>, core: seq<Utxo>, required: int, sel: seq<Utxo>)
    requires OptimalCore(pool, core, required)
    ensures |core| <= (if required > 5_000_000_000 then 50 else 10)
    ensures required > 0 && multiset(sel) <= multiset(pool) && Sum(Amount, sel) >= required
            && |sel| <= (if required > 5_000_000_000 then 50 else 10) ==>
              Sum(Amount, core) >= required && |core| <= |sel|
  {
    assert multiset(sel) <= multiset(pool) && Sum(Amount, sel) >= required ==> Covering(pool, sel, required);
  }

  // A single input is the smallest coin that pays alone; of two inputs, the larger is as small as in any pair that pays.
  lemma FewCoinsInNumbers(pool: seq<Utxo>, core: seq<Utxo>, required: int, a: Utxo, b: Utxo)
    requires OptimalCore(pool, core, required) && required > 0 && Sum(Amount, core) >= required
    ensures |core| == 1 && a in pool && a.amount >= required ==> core[0].amount <= a.amount
    ensures |core| == 2 && multiset{a, b} <= multiset(pool) && a.amount + b.amount >= required ==>
              core[1].amount <= a.amount || core[1].amount <= b.amount
  {
    if |core| == 1 && a in pool && a.amount >= required {
      SumOfTwo(a, a);
      assert a in multiset(pool);
      assert Covering(pool, [a], required);
    }
    if |core| == 2 && multiset{a, b} <= multiset(pool) && a.amount + b.amount >= required {
      SumOfTwo(a, b);
      assert multiset([a, b]) == multiset{a, b};
      assert Covering(pool, [a, b], required);
    }
  }

  // The swept coin is the smallest of the unselected coins worth more than 327 bytes, and is below half a bitcoin.
  lemma SweepInNumbers(pool: seq<Utxo>, core: seq<Utxo>, sweep: seq<Utxo>, networkFee: nat, u: Utxo)
    requires IsSweep(pool, core, sweep, networkFee)
    ensures |sweep| <= 1
    ensures forall s :: s in sweep ==>
              && s in pool && 327 * networkFee < s.amount < 50_000_000
              && forall i :: 0 <= i < |core| ==> core[i].outPoint != s.outPoint
    ensures u in pool && 327 * networkFee < u.amount < 50_000_000 && (forall i :: 0 <= i < |core| ==> core[i].outPoint != u.outPoint)
            ==> sweep != [] && sweep[0].amount <= u.amount
  {
    var best :| IsSmallest(pool, core, best, networkFee)
                && sweep == if best.Some? && 0 < best.value.amount < SMALL_UTXO_DEFINE then [best.value] else [];
    if u in pool && 327 * networkFee < u.amount < 50_000_000 && (forall i :: 0 <= i < |core| ==> core[i].outPoint != u.outPoint) {
      assert Sweepable(core, u, networkFee);
    }
  }

  // Change above 93 times the rate gets an output, which is part of the estimate; other change is added to the fee.
  lemma PriceInNumbers(s: Selection, receivers: seq<WalletType>, networkFee: int, outputs: int)
    requires PricedBy(s, receivers, networkFee, outputs)
    ensures s.total == Sum(Amount, s.utxos)
    ensures var change, inputs := s.total - s.withdrawAmount, Types(s.utxos);
            if change > 93 * networkFee
            then s.changeAmount == change && s.estimatedFee == VirtualSize(receivers, outputs + 1, inputs) * networkFee as real
            else s.changeAmount == 0
                 && s.estimatedFee == VirtualSize(receivers, outputs, inputs) * networkFee as real + change as real
    ensures |Types(s.utxos)| == |s.utxos| && forall i :: 0 <= i < |s.utxos| ==> Types(s.utxos)[i] == s.utxos[i].receiverType
  {
  }

  // ---------- Consolidations ----------

  predicate IsSmallCoin(u: Utxo, threshold: int) {
    u.amount < threshold && (u.receiverType == P2WPKH || u.receiverType == P2WSH || u.receiverType == P2PKH)
  }

  lemma {:induction false} SmallInNumbers(rows: seq<Utxo>, threshold: int, u: Utxo)
    ensures u in Small(rows, threshold) <==> u in rows && IsSmallCoin(u, threshold)
    decreases |rows|
  {
    if rows != [] {
      var front, last := rows[..|rows| - 1], rows[|rows| - 1];
      assert rows == front + [last];
      SmallInNumbers(front, threshold, u);
    }
  }

  // A consolidation takes small coins of the standard single-key types only, all of them unless the limit is reached.
  lemma TakenInNumbers(rows: seq<Utxo>, threshold: int, maxVin: nat, u: Utxo)
    requires maxVin >= 1
    ensures |Taken(rows, threshold, maxVin)| <= maxVin
    ensures u in Taken(rows, threshold, maxVin) ==> u in rows && IsSmallCoin(u, threshold)
    ensures u in rows && IsSmallCoin(u, threshold) && |Taken(rows, threshold, maxVin)| < maxVin ==> u in Taken(rows, threshold, maxVin)
  {
    SmallInNumbers(rows, threshold, u);
  }
}
