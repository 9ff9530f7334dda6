// Size estimates and sizes of unsigned transactions (internal/types/utxo.go).
module TxSize {
  import opened Common
  import opened Models
  import opened Sums

  const SMALL_UTXO_DEFINE := 50_000_000

  function GetDustAmount(txPrice: int): int {
    txPrice * 31 * 3
  }

  // ---------- The estimate ----------

  function InputBase(t: WalletType): int {
    match t
    case P2WPKH => 41
    case P2PKH => 148
    case P2WSH => 41
    case P2SH => 296
    case P2TR => 41
    case OtherType => 0
  }

  function InputWitness(t: WalletType): int {
    match t
    case P2WPKH => 108
    case P2WSH => 132
    case P2TR => 66
    case _ => 0
  }

  function OutputBase(t: WalletType): int {
    match t
    case P2PKH => 34
    case P2WPKH => 31
    case P2SH => 32
    case P2WSH => 43
    case P2TR => 43
    case OtherType => 0
  }

  function BaseSize(receivers: seq<WalletType>, numOutputs: int, inputs: seq<WalletType>): int {
    10 + Sum(InputBase, inputs) + Sum(OutputBase, receivers)
    + if |receivers| < numOutputs then 31 * (numOutputs - |receivers|) else 0
  }

  function WitnessSize(inputs: seq<WalletType>): int {
    var w := Sum(InputWitness, inputs);
    if w > 0 then w + 2 else w
  }

  function VirtualSize(receivers: seq<WalletType>, numOutputs: int, inputs: seq<WalletType>): real {
    BaseSize(receivers, numOutputs, inputs) as real + WitnessSize(inputs) as real / 4.0
  }

  lemma {:induction false} SumNonNegative<T>(f: T -> int, s: seq<T>)
    requires forall x :: x in s ==> f(x) >= 0
    ensures Sum(f, s) >= 0
  {
    if s != [] {
      assert s[|s| - 1] in s;
      SumNonNegative(f, s[..|s| - 1]);
    }
  }

  method TransactionSizeEstimateV2(numInputs: int, receiverTypes: seq<WalletType>, numOutputs: int,
                                   utxoTypes: seq<WalletType>)
    returns (virtualSize: real, witnessSize: int)
    ensures virtualSize == VirtualSize(receiverTypes, numOutputs, utxoTypes)
    ensures witnessSize == WitnessSize(utxoTypes)
  {
    var baseSize := 4 + 4;
    witnessSize := 0;
    baseSize := baseSize + 1;
    var i := 0;
    while i < |utxoTypes|
      invariant 0 <= i <= |utxoTypes|
      invariant baseSize == 9 + Sum(InputBase, utxoTypes[..i])
      invariant witnessSize == Sum(InputWitness, utxoTypes[..i])
    {
      SumNext(InputBase, utxoTypes, i);
      SumNext(InputWitness, utxoTypes, i);
      match utxoTypes[i] {
        case P2WPKH => baseSize, witnessSize := baseSize + 41, witnessSize + 108;
        case P2PKH => baseSize := baseSize + 148;
        case P2WSH => baseSize, witnessSize := baseSize + 41, witnessSize + 132;
        case P2SH => baseSize := baseSize + 296;
        case P2TR => baseSize, witnessSize := baseSize + 41, witnessSize + 66;
        case OtherType =>
      }
      i := i + 1;
    }
    assert utxoTypes[..i] == utxoTypes;
    baseSize := baseSize + 1;
    ghost var inputsSize := baseSize;
    i := 0;
    while i < |receiverTypes|
      invariant 0 <= i <= |receiverTypes|
      invariant baseSize == inputsSize + Sum(OutputBase, receiverTypes[..i])
    {
      SumNext(OutputBase, receiverTypes, i);
      match receiverTypes[i] {
        case P2PKH => baseSize := baseSize + 34;
        case P2WPKH => baseSize := baseSize + 31;
        case P2SH => baseSize := baseSize + 32;
        case P2WSH => baseSize := baseSize + 43;
        case P2TR => baseSize := baseSize + 43;
        case OtherType =>
      }
      i := i + 1;
    }
    assert receiverTypes[..i] == receiverTypes;
    if |receiverTypes| < numOutputs {
      baseSize := baseSize + 31 * (numOutputs - |receiverTypes|);
    }
    if witnessSize > 0 {
      witnessSize := witnessSize + 2;
    }
    virtualSize := (baseSize * 4 + witnessSize) as real / 4.0;
  }

  // ---------- Unsigned transactions ----------

  // payload is what tells scripts of one kind apart.
  datatype Script = Script(kind: WalletType, length: nat, payload: string)

  datatype TxOut = TxOut(value: int, script: Script)

  datatype Tx = Tx(inputs: seq<OutPoint>, outputs: seq<TxOut>)

  // Length of the script that pays to each standard address type.
  function ScriptLength(t: WalletType): nat {
    match t
    case P2PKH => 25
    case P2WPKH => 22
    case P2SH => 23
    case P2WSH => 34
    case P2TR => 34
    case OtherType => 0
  }

  predicate Standard(s: Script) {
    s.kind != OtherType && s.length == ScriptLength(s.kind)
  }

  // Bytes of a compact size integer, as Bitcoin serialises counts and lengths.
  function VarIntSize(n: nat): int {
    if n < 0xfd then 1 else if n <= 0xffff then 3 else if n <= 0xffff_ffff then 5 else 9
  }

  function OutputSize(o: TxOut): int {
    8 + VarIntSize(o.script.length) + o.script.length
  }

  // Version, inputs with empty scripts, outputs and lock time.
  function SerializeSizeNoWitness(tx: Tx): (size: int)
  {
    4 + VarIntSize(|tx.inputs|) + (32 + 4 + 1 + 4) * |tx.inputs|
    + VarIntSize(|tx.outputs|) + Sum(OutputSize, tx.outputs) + 4
  }

  function Value(o: TxOut): int {
    o.value
  }
}
