// Choosing the inputs of a withdrawal or consolidation (internal/wallet/withdraw_strategy.go).
module CoinSelection {
  import opened Common
  import opened Models
  import opened Sums
  import opened TxSize

  function Amount(u: Utxo): int { u.amount }

  function AmountDown(u: Utxo): int { -u.amount }

  function Types(s: seq<Utxo>): seq<WalletType> {
    seq(|s|, i requires 0 <= i < |s| => s[i].receiverType)
  }

  // ---------- What an optimal selection is ----------

  // Selections are compared as multisets of table rows, so a row is used at most as often as it occurs.
  ghost predicate Covering(pool: seq<Utxo>, sel: seq<Utxo>, required: int) {
    multiset(sel) <= multiset(pool) && Sum(Amount, sel) >= required
  }

  function MaxVin(required: int): nat {
    if required > 50 * 100_000_000 then 50 else 10
  }

  // If any selection within the input limit covers the requirement, the core does, with the fewest inputs.
  ghost predicate FewestInputs(pool: seq<Utxo>, core: seq<Utxo>, required: int, limit: nat) {
    forall sel :: Covering(pool, sel, required) && |sel| <= limit ==>
      Sum(Amount, core) >= required && |core| <= |sel|
  }

  ghost predicate HasAtLeast(sel: seq<Utxo>, amount: int) {
    exists i :: 0 <= i < |sel| && sel[i].amount >= amount
  }

  // One or two inputs are chosen with the smallest possible largest coin.
  ghost predicate SmallestCoins(pool: seq<Utxo>, core: seq<Utxo>, required: int) {
    Sum(Amount, core) >= required && (|core| == 1 || |core| == 2) ==>
      forall sel :: Covering(pool, sel, required) && |sel| == |core| ==> HasAtLeast(sel, core[|core| - 1].amount)
  }

  ghost predicate OptimalCore(pool: seq<Utxo>, core: seq<Utxo>, required: int) {
    && multiset(core) <= multiset(pool)
    && |core| <= MaxVin(required)
    && (required > 0 ==> FewestInputs(pool, core, required, MaxVin(required)) && SmallestCoins(pool, core, required))
  }

  // A coin that may be swept along with a core: worth its own fee and not spent by the core already.
  ghost predicate Sweepable(core: seq<Utxo>, u: Utxo, networkFee: int) {
    u.amount > networkFee * (296 + 31) && forall i :: 0 <= i < |core| ==> core[i].outPoint != u.outPoint
  }

  ghost predicate IsSmallest(pool: seq<Utxo>, core: seq<Utxo>, best: Option<Utxo>, networkFee: int) {
    match best
    case None => forall u :: u in pool ==> !Sweepable(core, u, networkFee)
    case Some(b) => b in pool && Sweepable(core, b, networkFee)
                    && forall u :: u in pool && Sweepable(core, u, networkFee) ==> b.amount <= u.amount
  }

  // The inputs appended after the core: the smallest sweepable coin, when it is below the small-coin bound.
  ghost predicate IsSweep(pool: seq<Utxo>, core: seq<Utxo>, sweep: seq<Utxo>, networkFee: int) {
    exists best :: IsSmallest(pool, core, best, networkFee)
      && sweep == if best.Some? && 0 < best.value.amount < SMALL_UTXO_DEFINE then [best.value] else []
  }

  // ---------- The three phases ----------

  // Two of the first i coins add up to at most the last two of them.
  lemma PairBound(s: seq<Utxo>, sel: seq<Utxo>, i: nat)
    requires Ascending(Amount, s) && i <= |s|
    requires multiset(sel) <= multiset(s[..i]) && |sel| == 2
    ensures i > 1 && Sum(Amount, sel) <= s[i - 2].amount + s[i - 1].amount
  {
    var d := Backwards(s[..i]);
    ReverseMultiset(s[..i], d);
    SubsetSize(sel, d);
    FirstAreLargest(Amount, d, sel);
    SumOfTwo(d[0], d[1]);
    assert d[..2] == [d[0], d[1]];
  }

  function Backwards(s: seq<Utxo>): (d: seq<Utxo>)
    ensures |d| == |s| && forall k :: 0 <= k < |s| ==> d[k] == s[|s| - 1 - k]
  {
    seq(|s|, k requires 0 <= k < |s| => s[|s| - 1 - k])
  }

  lemma SumOfTwo(a: Utxo, b: Utxo)
    ensures Sum(Amount, [a, b]) == a.amount + b.amount && Sum(Amount, [a]) == a.amount
  {
    SumSnoc(Amount, [a], b);
    SumSnoc(Amount, [], a);
    assert [a] + [b] == [a, b] && [] + [a] == [a];
  }

  lemma SingleSum(s: seq<Utxo>, sel: seq<Utxo>)
    requires multiset(sel) <= multiset(s) && |sel| == 1
    ensures sel[0] in s && Sum(Amount, sel) == sel[0].amount
  {
    SumOfTwo(sel[0], sel[0]);
    assert sel == [sel[0]] && sel[0] in multiset(sel);
    assert sel[0] in multiset(s);
  }

  // Coins below s[i] all come from the part of s before i.
  lemma {:induction false} SplitAscending(s: seq<Utxo>, sel: seq<Utxo>, i: nat)
    requires Ascending(Amount, s) && i < |s| && multiset(sel) <= multiset(s)
    requires forall k :: 0 <= k < |sel| ==> sel[k].amount < s[i].amount
    ensures multiset(sel) <= multiset(s[..i])
  {
    assert s == s[..i] + s[i..];
    forall u ensures multiset(sel)[u] <= multiset(s[..i])[u] {
      if u in multiset(sel) {
        assert u in sel;
        assert u !in s[i..];
        assert multiset(s)[u] == multiset(s[..i])[u] + multiset(s[i..])[u];
      }
    }
  }

  lemma {:induction false} ReverseMultiset(s: seq<Utxo>, d: seq<Utxo>)
    requires |s| == |d| && forall k :: 0 <= k < |d| ==> d[k] == s[|s| - 1 - k]
    ensures multiset(s) == multiset(d)
  {
    if s != [] {
      var front, last := s[..|s| - 1], s[|s| - 1];
      ReverseMultiset(front, d[1..]);
      assert s == front + [last];
      assert d == [last] + d[1..];
    }
  }

  // Phase one: the first coin that covers the requirement alone.
  method FindSingle(s: seq<Utxo>, required: int) returns (core: seq<Utxo>, found: bool)
    requires Ascending(Amount, s)
    ensures found ==> OptimalCore(s, core, required) && Sum(Amount, core) >= required
    ensures !found ==> forall k :: 0 <= k < |s| ==> s[k].amount < required
  {
    core, found := [], false;
    for i := 0 to |s|
      invariant forall k :: 0 <= k < i ==> s[k].amount < required
    {
      if s[i].amount >= required {
        core, found := [s[i]], true;
        SingleIsOptimal(s, i, required);
        return;
      }
    }
  }

  lemma SingleIsOptimal(s: seq<Utxo>, i: nat, required: int)
    requires Ascending(Amount, s) && i < |s| && s[i].amount >= required
    requires forall k :: 0 <= k < i ==> s[k].amount < required
    ensures OptimalCore(s, [s[i]], required) && Sum(Amount, [s[i]]) >= required
  {
    var core := [s[i]];
    SumOfTwo(s[i], s[i]);
    assert s[i] in s;
    assert multiset(core) <= multiset(s);
    if required > 0 {
      forall sel | Covering(s, sel, required) && |sel| == 1 ensures HasAtLeast(sel, s[i].amount) {
        SingleSum(s, sel);
        var k: int :| 0 <= k < |s| && s[k] == sel[0];
        assert s[k].amount >= s[i].amount;
      }
    }
  }

  // Phase two: the first two neighbours that cover it together.
  method FindPair(s: seq<Utxo>, required: int) returns (core: seq<Utxo>, found: bool)
    requires Ascending(Amount, s)
    requires forall k :: 0 <= k < |s| ==> s[k].amount < required
    ensures found ==> OptimalCore(s, core, required) && Sum(Amount, core) >= required
    ensures !found ==> core == []
    ensures !found && required > 0 ==> forall sel :: Covering(s, sel, required) ==> |sel| > 2
  {
    core, found := [], false;
    var i := 1;
    while i < |s|
      invariant 1 <= i
      invariant forall k :: 1 <= k < i && k < |s| ==> s[k - 1].amount + s[k].amount < required
    {
      if s[i - 1].amount + s[i].amount >= required {
        core, found := [s[i - 1], s[i]], true;
        PairIsOptimal(s, i, required);
        return;
      }
      i := i + 1;
    }
    if required > 0 {
      NoSingle(s, required);
      forall sel | Covering(s, sel, required) ensures |sel| > 2 {
        if |sel| == 2 {
          assert s[..|s|] == s;
          PairBound(s, sel, |s|);
        }
      }
    }
  }

  lemma NoSingle(s: seq<Utxo>, required: int)
    requires required > 0 && forall k :: 0 <= k < |s| ==> s[k].amount < required
    ensures forall sel :: Covering(s, sel, required) ==> |sel| >= 2
  {
    forall sel | Covering(s, sel, required) ensures |sel| >= 2 {
      if |sel| == 1 {
        SingleSum(s, sel);
      }
    }
  }

  lemma PairIsOptimal(s: seq<Utxo>, i: nat, required: int)
    requires Ascending(Amount, s) && 0 < i < |s| && s[i - 1].amount + s[i].amount >= required
    requires forall k :: 0 <= k < |s| ==> s[k].amount < required
    requires forall k :: 1 <= k < i ==> s[k - 1].amount + s[k].amount < required
    ensures OptimalCore(s, [s[i - 1], s[i]], required) && Sum(Amount, [s[i - 1], s[i]]) >= required
  {
    var core := [s[i - 1], s[i]];
    SumOfTwo(s[i - 1], s[i]);
    assert s == s[..i - 1] + core + s[i + 1..];
    if required > 0 {
      NoSingle(s, required);
      forall sel | Covering(s, sel, required) && |sel| == 2 ensures HasAtLeast(sel, s[i].amount) {
        if !HasAtLeast(sel, s[i].amount) {
          SplitAscending(s, sel, i);
          PairBound(s, sel, i);
        }
      }
    }
  }

  // Phase three: coins from large to small until the requirement or the input limit is met.
  method AccumulateLargest(d: seq<Utxo>, required: int, maxVin: nat) returns (core: seq<Utxo>)
    requires Ascending(AmountDown, d) && maxVin > 0
    ensures core <= d && |core| <= maxVin
    ensures FewestInputs(d, core, required, maxVin)
  {
    core := [];
    var total := 0;
    var i := 0;
    while i < |d| && total < required && |core| < maxVin
      invariant 0 <= i <= |d| && core == d[..i] && i <= maxVin
      invariant total == Sum(Amount, core)
      invariant forall k :: 0 <= k < i ==> Sum(Amount, d[..k]) < required
    {
      SumNext(Amount, d, i);
      core := core + [d[i]];
      total := total + d[i].amount;
      i := i + 1;
    }
    GreedyHasFewest(d, i, required, maxVin);
  }

  lemma GreedyHasFewest(d: seq<Utxo>, n: nat, required: int, maxVin: nat)
    requires Ascending(AmountDown, d) && n <= |d|
    requires forall k :: 0 <= k < n ==> Sum(Amount, d[..k]) < required
    requires Sum(Amount, d[..n]) >= required || n == |d| || n >= maxVin
    ensures FewestInputs(d, d[..n], required, maxVin)
  {
    forall i, j | 0 <= i < j < |d| ensures d[i].amount >= d[j].amount {
      assert AmountDown(d[i]) <= AmountDown(d[j]);
    }
    forall sel | Covering(d, sel, required) && |sel| <= maxVin
      ensures Sum(Amount, d[..n]) >= required && n <= |sel|
    {
      FirstAreLargest(Amount, d, sel);
    }
  }

  // ---------- The sweep ----------

  method IsAlreadySelected(core: seq<Utxo>, u: Utxo) returns (selected: bool)
    ensures selected <==> exists i :: 0 <= i < |core| && core[i].outPoint == u.outPoint
  {
    selected := false;
    for i := 0 to |core|
      invariant forall k :: 0 <= k < i ==> core[k].outPoint != u.outPoint
    {
      if core[i].outPoint == u.outPoint {
        return true;
      }
    }
  }

  method FindSmallest(pool: seq<Utxo>, core: seq<Utxo>, networkFee: int) returns (smallest: Option<Utxo>)
    ensures IsSmallest(pool, core, smallest, networkFee)
  {
    smallest := None;
    var i := 0;
    while i < |pool|
      invariant 0 <= i <= |pool|
      invariant IsSmallest(pool[..i], core, smallest, networkFee)
    {
      var u := pool[i];
      var selected := IsAlreadySelected(core, u);
      assert pool[..i + 1] == pool[..i] + [u];
      if !selected {
        if u.amount > networkFee * (296 + 31) && (smallest.None? || u.amount < smallest.value.amount) {
          smallest := Some(u);
        }
      }
      i := i + 1;
    }
    assert pool[..i] == pool;
  }

  // ---------- SelectOptimalUTXOs ----------

  datatype Selection = Selection(
    utxos: seq<Utxo>, total: int, withdrawAmount: int, changeAmount: int, estimatedFee: real, witnessSize: int)

  // Not enough coins; the error reports the fee estimated for what was selected.
  datatype NotEnough = NotEnough(selectedAmount: int, estimatedFee: real)

  // The fee in satoshis for a selection, without or with a change output.
  function FeeFor(sel: seq<Utxo>, receiverTypes: seq<WalletType>, outputs: int, networkFee: int): real {
    VirtualSize(receiverTypes, outputs, Types(sel)) * networkFee as real
  }

  // Change worth an output gets one; other change is added to the fee estimate and reported as zero.
  ghost predicate PricedBy(s: Selection, receiverTypes: seq<WalletType>, networkFee: int, withdrawTotal: int) {
    var change := s.total - s.withdrawAmount;
    && s.total == Sum(Amount, s.utxos)
    && s.witnessSize == WitnessSize(Types(s.utxos))
    && if change > GetDustAmount(networkFee) then
         && s.changeAmount == change
         && s.estimatedFee == FeeFor(s.utxos, receiverTypes, withdrawTotal + 1, networkFee)
       else
         && s.changeAmount == 0
         && s.estimatedFee == FeeFor(s.utxos, receiverTypes, withdrawTotal, networkFee) + change as real
  }

  method SelectCore(utxos: array<Utxo>, required: int) returns (core: seq<Utxo>)
    modifies utxos
    ensures multiset(utxos[..]) == multiset(old(utxos[..]))
    ensures OptimalCore(old(utxos[..]), core, required)
  {
    ghost var pool := utxos[..];
    SortSlice(utxos, Amount);
    ghost var asc := utxos[..];
    var found;
    core, found := FindSingle(utxos[..], required);
    if !found {
      core, found := FindPair(utxos[..], required);
    }
    if !found {
      SortSlice(utxos, AmountDown);
      core := AccumulateLargest(utxos[..], required, MaxVin(required));
      GreedyIsOptimal(asc, utxos[..], core, required);
    }
    SamePool(asc, pool, core, required);
  }

  lemma SamePool(s: seq<Utxo>, pool: seq<Utxo>, core: seq<Utxo>, required: int)
    requires multiset(s) == multiset(pool) && OptimalCore(s, core, required)
    ensures OptimalCore(pool, core, required)
  {
    forall sel ensures Covering(pool, sel, required) == Covering(s, sel, required) {
    }
  }

  // When neither one nor two coins suffice, the greedy prefix is optimal.
  lemma GreedyIsOptimal(s: seq<Utxo>, d: seq<Utxo>, core: seq<Utxo>, required: int)
    requires multiset(s) == multiset(d) && core <= d && |core| <= MaxVin(required)
    requires FewestInputs(d, core, required, MaxVin(required))
    requires required > 0 ==> forall sel :: Covering(s, sel, required) ==> |sel| > 2
    ensures OptimalCore(s, core, required)
  {
    assert d == core + d[|core|..];
    forall sel ensures Covering(s, sel, required) == Covering(d, sel, required) {
    }
  }

  method SelectOptimalUTXOs(utxos: array<Utxo>, receiverTypes: seq<WalletType>,
                            withdrawAmount: int, externalAmount: int, networkFee: int, withdrawTotal: int)
    returns (r: Result<Selection, NotEnough>, ghost core: seq<Utxo>, ghost sweep: seq<Utxo>)
    modifies utxos
    ensures multiset(utxos[..]) == multiset(old(utxos[..]))
    ensures OptimalCore(old(utxos[..]), core, withdrawAmount + externalAmount)
    ensures IsSweep(old(utxos[..]), core, sweep, networkFee)
    ensures r.Ok? <==> Sum(Amount, core + sweep) >= withdrawAmount + externalAmount
    ensures r.Ok? ==> r.value.utxos == core + sweep && r.value.withdrawAmount == withdrawAmount
                      && PricedBy(r.value, receiverTypes, networkFee, withdrawTotal)
    ensures r.Err? ==> r.error == NotEnough(Sum(Amount, core + sweep),
                                            FeeFor(core + sweep, receiverTypes, withdrawTotal, networkFee))
  {
    var required := withdrawAmount + externalAmount;
    var selected := SelectCore(utxos, required);
    core := selected;
    var smallest := FindSmallest(utxos[..], selected, networkFee);
    SmallestInPool(utxos[..], old(utxos[..]), core, smallest, networkFee);
    sweep := [];
    if smallest.Some? && smallest.value.amount > 0 && smallest.value.amount < SMALL_UTXO_DEFINE {
      selected := selected + [smallest.value];
      sweep := [smallest.value];
    }
    assert selected == core + sweep;
    r := PriceSelection(selected, receiverTypes, withdrawAmount, required, networkFee, withdrawTotal);
  }

  // The amounts and fee of SelectOptimalUTXOs once its inputs are known.
  method PriceSelection(selected: seq<Utxo>, receiverTypes: seq<WalletType>,
                        withdrawAmount: int, required: int, networkFee: int, withdrawTotal: int)
    returns (r: Result<Selection, NotEnough>)
    ensures r.Ok? <==> Sum(Amount, selected) >= required
    ensures r.Ok? ==> r.value.utxos == selected && r.value.withdrawAmount == withdrawAmount
                      && PricedBy(r.value, receiverTypes, networkFee, withdrawTotal)
    ensures r.Err? ==> r.error == NotEnough(Sum(Amount, selected),
                                            FeeFor(selected, receiverTypes, withdrawTotal, networkFee))
  {
    var total := TotalAmount(selected);
    var estimatedFee, witnessSize := EstimateFee(selected, receiverTypes, withdrawTotal, networkFee);
    if total < required {
      return Err(NotEnough(total, estimatedFee));
    }
    var changeAmount := total - withdrawAmount;
    if changeAmount > GetDustAmount(networkFee) {
      estimatedFee, witnessSize := EstimateFee(selected, receiverTypes, withdrawTotal + 1, networkFee);
    } else {
      estimatedFee := estimatedFee + changeAmount as real;
      changeAmount := 0;
    }
    r := Ok(Selection(selected, total, withdrawAmount, changeAmount, estimatedFee, witnessSize));
  }

  method EstimateFee(selected: seq<Utxo>, receiverTypes: seq<WalletType>, outputs: int, networkFee: int)
    returns (fee: real, witnessSize: int)
    ensures fee == FeeFor(selected, receiverTypes, outputs, networkFee)
    ensures witnessSize == WitnessSize(Types(selected))
  {
    var txSize;
    txSize, witnessSize := TransactionSizeEstimateV2(|selected|, receiverTypes, outputs, Types(selected));
    fee := txSize * networkFee as real;
  }

  method TotalAmount(sel: seq<Utxo>) returns (total: int)
    ensures total == Sum(Amount, sel)
  {
    total := 0;
    for i := 0 to |sel|
      invariant total == Sum(Amount, sel[..i])
    {
      SumNext(Amount, sel, i);
      total := total + sel[i].amount;
    }
    assert sel[..|sel|] == sel;
  }

  lemma SmallestInPool(s: seq<Utxo>, pool: seq<Utxo>, core: seq<Utxo>, best: Option<Utxo>, networkFee: int)
    requires multiset(s) == multiset(pool) && IsSmallest(s, core, best, networkFee)
    ensures IsSmallest(pool, core, best, networkFee)
  {
    assert forall u :: u in s <==> u in multiset(s);
    assert forall u :: u in pool <==> u in multiset(pool);
  }

  // ---------- What every selection guarantees ----------

  // If some selection within the input limit covers a positive requirement, the chosen inputs cover it,
  // and apart from at most one swept coin they are as few as any covering selection of any size has.
  lemma SelectionIsOptimal(pool: seq<Utxo>, core: seq<Utxo>, sweep: seq<Utxo>, sel: seq<Utxo>,
                           required: int, networkFee: int)
    requires OptimalCore(pool, core, required) && IsSweep(pool, core, sweep, networkFee)
    requires required > 0 && Covering(pool, sel, required) && |sel| <= MaxVin(required)
    ensures Sum(Amount, core) >= required && Sum(Amount, core + sweep) >= required
    ensures |sweep| <= 1
    ensures forall other :: Covering(pool, other, required) ==> |core| <= |other|
  {
    SumConcat(Amount, core, sweep);
    if sweep != [] {
      SumOfTwo(sweep[0], sweep[0]);
      assert sweep == [sweep[0]];
    }
  }

  function OutPointOf(u: Utxo): OutPoint {
    u.outPoint
  }

  // From a table without duplicate outpoints, no outpoint is selected twice.
  lemma SelectionIsDistinct(pool: seq<Utxo>, core: seq<Utxo>, sweep: seq<Utxo>, required: int, networkFee: int)
    requires OptimalCore(pool, core, required) && IsSweep(pool, core, sweep, networkFee)
    requires DistinctKeys(OutPointOf, pool)
    ensures DistinctKeys(OutPointOf, core + sweep)
    ensures forall u :: u in core + sweep ==> u in pool
  {
    ChoiceIsDistinct(OutPointOf, pool, core);
  }

  // ---------- Consolidation ----------

  datatype ConsolidateError = FeeTooHigh | NotEnoughUtxos | TotalTooLow | FeeExceedsTotal

  datatype Merge = Merge(utxos: seq<Utxo>, total: int, finalAmount: int, witnessSize: int)

  predicate SingleKey(t: WalletType) {
    t in {P2WPKH, P2WSH, P2PKH}
  }

  predicate Consolidates(u: Utxo, threshold: int) {
    SingleKey(u.receiverType) && u.amount < threshold
  }

  function Small(utxos: seq<Utxo>, threshold: int): seq<Utxo> {
    if utxos == [] then [] else
    var front := Small(utxos[..|utxos| - 1], threshold);
    if Consolidates(utxos[|utxos| - 1], threshold) then front + [utxos[|utxos| - 1]] else front
  }

  lemma {:induction false} SmallPrefix(utxos: seq<Utxo>, threshold: int, i: nat)
    requires i <= |utxos|
    ensures Small(utxos[..i], threshold) <= Small(utxos, threshold)
  {
    if i < |utxos| {
      SmallPrefix(utxos[..|utxos| - 1], threshold, i);
      assert utxos[..|utxos| - 1][..i] == utxos[..i];
    } else {
      assert utxos[..i] == utxos;
    }
  }

  // The fee that consolidating a selection into one output costs.
  function ConsolidationFee(sel: seq<Utxo>, networkFee: int): int {
    Ceil(VirtualSize([P2WPKH], 1, Types(sel))) * networkFee
  }

  method ConsolidateUTXOsByCount(utxos: seq<Utxo>, networkFee: int, maxNetworkFee: int, threshold: int,
                                 maxVin: int, triggerNum: int)
    returns (r: Result<Merge, ConsolidateError>)
    ensures r == Err(FeeTooHigh) <==> networkFee > maxNetworkFee
    ensures r == Err(NotEnoughUtxos) <==> networkFee <= maxNetworkFee && |utxos| < triggerNum
    ensures networkFee <= maxNetworkFee && |utxos| >= triggerNum ==>
              var sel := Taken(utxos, threshold, maxVin);
              var total := Sum(Amount, sel);
              && (r == Err(TotalTooLow) <==> total < GetDustAmount(networkFee))
              && (r == Err(FeeExceedsTotal) <==>
                   total >= GetDustAmount(networkFee) && total <= ConsolidationFee(sel, networkFee))
              && (r.Ok? ==> r.value == Merge(sel, total, total - ConsolidationFee(sel, networkFee),
                                                     WitnessSize(Types(sel))))
  {
    if networkFee > maxNetworkFee {
      return Err(FeeTooHigh);
    }
    if |utxos| < triggerNum {
      return Err(NotEnoughUtxos);
    }
    var selected := TakeSmall(utxos, threshold, maxVin);
    var total := TotalAmount(selected);
    var txSize, witnessSize := TransactionSizeEstimateV2(|selected|, [P2WPKH], 1, Types(selected));
    var estimatedFee := Ceil(txSize) * networkFee;
    if total < GetDustAmount(networkFee) {
      return Err(TotalTooLow);
    }
    var finalAmount := total - estimatedFee;
    if finalAmount <= 0 {
      return Err(FeeExceedsTotal);
    }
    r := Ok(Merge(selected, total, finalAmount, witnessSize));
  }

  // What the scan takes: the small coins up to the limit.  A limit below one still lets it look at the first coin
  // of a standard type.
  function Taken(utxos: seq<Utxo>, threshold: int, maxVin: int): seq<Utxo> {
    if maxVin >= 1 then
      var all := Small(utxos, threshold);
      if |all| <= maxVin then all else all[..maxVin]
    else if utxos == [] then []
    else if !SingleKey(utxos[0].receiverType) then Taken(utxos[1..], threshold, maxVin)
    else if utxos[0].amount < threshold then [utxos[0]]
    else []
  }

  // The selection loop of ConsolidateUTXOsByCount.
  method TakeSmall(utxos: seq<Utxo>, threshold: int, maxVin: int) returns (selected: seq<Utxo>)
    ensures selected == Taken(utxos, threshold, maxVin)
  {
    selected := [];
    var i := 0;
    while i < |utxos|
      invariant 0 <= i <= |utxos|
      invariant selected == Small(utxos[..i], threshold)
      invariant maxVin >= 1 ==> |selected| < maxVin
      invariant maxVin < 1 ==> selected == [] && Taken(utxos, threshold, maxVin) == Taken(utxos[i..], threshold, maxVin)
    {
      var u := utxos[i];
      assert utxos[..i + 1][..i] == utxos[..i] && utxos[i..][1..] == utxos[i + 1..];
      i := i + 1;
      if u.receiverType != P2WPKH && u.receiverType != P2WSH && u.receiverType != P2PKH {
        continue;
      }
      if u.amount < threshold {
        selected := selected + [u];
      }
      if |selected| >= maxVin {
        SmallPrefix(utxos, threshold, i);
        return;
      }
    }
    assert utxos[..i] == utxos;
  }
}
