// Choosing the withdrawals of one transaction (SelectWithdrawals).
module BatchSelection {
  import opened Common
  import opened Models
  import opened Sums
  import opened TxSize

  datatype NetworkFee = NetworkFee(fastest: nat, halfHour: nat, hour: nat)

  // Withdrawals are grouped by the network fee they can pay, best payers first.
  datatype Band = Fast | Medium | Slow

  // How an address decodes: the script that pays it, or no valid address.
  type Net = string -> Option<Script>

  const NANOS_PER_SECOND := 1_000_000_000
  const NANOS_PER_MINUTE := 60 * NANOS_PER_SECOND

  function BandFee(fee: NetworkFee, b: Band): nat {
    match b
    case Fast => fee.fastest
    case Medium => fee.halfHour
    case Slow => fee.hour
  }

  // The band of a withdrawal; a withdrawal that is dust in its band has none.
  function BandOf(fee: NetworkFee, w: Withdraw): Option<Band> {
    if w.txPrice >= fee.fastest then
      if w.amount > GetDustAmount(fee.fastest) then Some(Fast) else None
    else if w.txPrice >= fee.halfHour then
      if w.amount > GetDustAmount(fee.halfHour) then Some(Medium) else None
    else if w.txPrice >= fee.hour then
      if w.amount > GetDustAmount(fee.hour) then Some(Slow) else None
    else None
  }

  function PriceDown(w: Withdraw): int { 0 - w.txPrice as int }

  function CreatedUnix(w: Withdraw): int { w.createdAt / NANOS_PER_SECOND }

  function WithdrawAmount(w: Withdraw): int { w.amount }

  function GetAddressType(net: Net, address: string): WalletType {
    match net(address)
    case Some(script) => script.kind
    case None => OtherType
  }

  // The waiting times after which a smaller and a single-element batch may start.
  function WithdrawalWaitTime(network: string): (int, int) {
    if network == "regtest" then (5 * NANOS_PER_MINUTE, 10 * NANOS_PER_MINUTE)
    else (10 * NANOS_PER_MINUTE, 20 * NANOS_PER_MINUTE)
  }

  // What decides when a nonempty batch may start.
  datatype Policy = Policy(maxVout: nat, immediateCount: nat, now: int, wait1: int, wait2: int)

  predicate ShouldProcess(p: Policy, selected: seq<Withdraw>)
    requires selected != []
  {
    || |selected| >= p.immediateCount
    || (p.now - selected[0].createdAt > p.wait1 && |selected| >= p.immediateCount / 3)
    || p.now - selected[0].createdAt > p.wait2
  }

  // ---------- Which batches a band admits ----------

  // The withdrawals of a band, as a multiset.
  ghost predicate AreMembers(all: seq<Withdraw>, fee: NetworkFee, b: Band, members: multiset<Withdraw>) {
    forall w :: members[w] == if BandOf(fee, w) == Some(b) then multiset(all)[w] else 0
  }

  // A batch holds the oldest members of its band, oldest first, up to the output limit.
  ghost predicate IsBatch(all: seq<Withdraw>, fee: NetworkFee, b: Band, maxVout: nat, sel: seq<Withdraw>) {
    exists rest: seq<Withdraw> ::
      && AreMembers(all, fee, b, multiset(sel + rest))
      && Ascending(CreatedUnix, sel + rest)
      && |sel| <= maxVout && (|sel| < maxVout ==> rest == [])
  }

  ghost predicate Unready(all: seq<Withdraw>, fee: NetworkFee, p: Policy, b: Band) {
    exists sel :: IsBatch(all, fee, b, p.maxVout, sel) && (sel == [] || !ShouldProcess(p, sel))
  }

  ghost predicate HigherBandsUnready(all: seq<Withdraw>, fee: NetworkFee, p: Policy, b: Band) {
    && (b != Fast ==> Unready(all, fee, p, Fast))
    && (b == Slow ==> Unready(all, fee, p, Medium))
  }

  datatype Batch = Batch(withdrawals: seq<Withdraw>, receiverTypes: seq<WalletType>, amount: int, price: nat)

  ghost predicate BatchOfBand(all: seq<Withdraw>, fee: NetworkFee, p: Policy, net: Net, b: Band, batch: Batch) {
    && IsBatch(all, fee, b, p.maxVout, batch.withdrawals)
    && batch.withdrawals != [] && ShouldProcess(p, batch.withdrawals)
    && HigherBandsUnready(all, fee, p, b)
    && |batch.receiverTypes| == |batch.withdrawals|
    && (forall i :: 0 <= i < |batch.withdrawals| ==>
          batch.receiverTypes[i] == GetAddressType(net, batch.withdrawals[i].to))
    && batch.amount == Sum(WithdrawAmount, batch.withdrawals)
    && batch.price == BandFee(fee, b)
  }

  datatype BatchError = NetworkFeeTooHigh | NoneReady

  // ---------- SelectWithdrawals ----------

  method SelectWithdrawals(withdrawals: array<Withdraw>, fee: NetworkFee, maxNetworkFee: nat, p: Policy, net: Net)
    returns (r: Result<Batch, BatchError>, ghost band: Band)
    requires p.maxVout >= 1
    modifies withdrawals
    ensures multiset(withdrawals[..]) == multiset(old(withdrawals[..]))
    ensures r == Err(NetworkFeeTooHigh) <==> fee.fastest > maxNetworkFee
    ensures r.Ok? ==> BatchOfBand(old(withdrawals[..]), fee, p, net, band, r.value)
    ensures r == Err(NoneReady) ==> forall b :: Unready(old(withdrawals[..]), fee, p, b)
  {
    band := Fast;
    if fee.fastest > maxNetworkFee {
      return Err(NetworkFeeTooHigh), band;
    }
    ghost var all := withdrawals[..];
    SortSlice(withdrawals, PriceDown);
    var groups := GroupByBand(withdrawals[..], fee);
    SameMembers(withdrawals[..], all, fee, groups);
    r, band := FirstReady(groups, all, fee, p, net);
  }

  lemma SameMembers(s: seq<Withdraw>, all: seq<Withdraw>, fee: NetworkFee, groups: map<Band, seq<Withdraw>>)
    requires multiset(s) == multiset(all) && forall b :: b in groups && AreMembers(s, fee, b, multiset(groups[b]))
    ensures forall b :: b in groups && AreMembers(all, fee, b, multiset(groups[b]))
  {
    forall b ensures AreMembers(all, fee, b, multiset(groups[b])) {
      assert AreMembers(s, fee, b, multiset(groups[b]));
    }
  }

  // The bands in priority order: the first ready one is processed.
  method FirstReady(groups: map<Band, seq<Withdraw>>, ghost all: seq<Withdraw>, fee: NetworkFee, p: Policy, net: Net)
    returns (r: Result<Batch, BatchError>, ghost band: Band)
    requires forall b :: b in groups && AreMembers(all, fee, b, multiset(groups[b]))
    ensures r.Ok? ==> BatchOfBand(all, fee, p, net, band, r.value)
    ensures r.Err? ==> r.error == NoneReady && forall b :: Unready(all, fee, p, b)
  {
    band := Fast;
    var order := [Fast, Medium, Slow];
    var i := 0;
    while i < |order|
      invariant 0 <= i <= 3
      invariant forall k :: 0 <= k < i ==> Unready(all, fee, p, order[k])
    {
      var b := order[i];
      var sel := ApplyGroup(groups[b], all, fee, b, p.maxVout);
      if |sel| > 0 && ShouldProcess(p, sel) {
        var batch := PriceBatch(sel, BandFee(fee, b), net);
        band := b;
        assert order[0] == Fast && order[1] == Medium;
        return Ok(batch), band;
      }
      assert Unready(all, fee, p, b);
      i := i + 1;
    }
    forall b ensures Unready(all, fee, p, b) {
      assert b == order[0] || b == order[1] || b == order[2];
    }
    r := Err(NoneReady);
  }

  lemma MembersNext(s: seq<Withdraw>, i: nat, fee: NetworkFee, b: Band, group: seq<Withdraw>)
    requires i < |s| && AreMembers(s[..i], fee, b, multiset(group))
    ensures AreMembers(s[..i + 1], fee, b, multiset(if Some(b) == BandOf(fee, s[i]) then group + [s[i]] else group))
  {
    assert s[..i + 1] == s[..i] + [s[i]];
  }

  ghost predicate Grouped(s: seq<Withdraw>, fee: NetworkFee, groups: map<Band, seq<Withdraw>>) {
    forall b :: b in groups && AreMembers(s, fee, b, multiset(groups[b]))
  }

  lemma GroupedNext(s: seq<Withdraw>, i: nat, fee: NetworkFee, groups: map<Band, seq<Withdraw>>)
    requires i < |s| && Grouped(s[..i], fee, groups)
    ensures var band := BandOf(fee, s[i]);
            Grouped(s[..i + 1], fee, if band.Some? then groups[band.value := groups[band.value] + [s[i]]] else groups)
  {
    var band := BandOf(fee, s[i]);
    var groups' := if band.Some? then groups[band.value := groups[band.value] + [s[i]]] else groups;
    forall b ensures b in groups' && AreMembers(s[..i + 1], fee, b, multiset(groups'[b])) {
      MembersNext(s, i, fee, b, groups[b]);
    }
  }

  method GroupByBand(s: seq<Withdraw>, fee: NetworkFee) returns (groups: map<Band, seq<Withdraw>>)
    ensures Grouped(s, fee, groups)
  {
    groups := map[Fast := [], Medium := [], Slow := []];
    forall b ensures b in groups && groups[b] == [] {
      match b case Fast => case Medium => case Slow =>
    }
    var i := 0;
    while i < |s|
      invariant 0 <= i <= |s|
      invariant Grouped(s[..i], fee, groups)
    {
      GroupedNext(s, i, fee, groups);
      var band := BandOf(fee, s[i]);
      if band.Some? {
        groups := groups[band.value := groups[band.value] + [s[i]]];
      }
      i := i + 1;
    }
    assert s[..i] == s;
  }

  // Sorts a group by age and truncates it.
  method ApplyGroup(group: seq<Withdraw>, ghost all: seq<Withdraw>, fee: NetworkFee, b: Band, maxVout: nat)
    returns (sel: seq<Withdraw>)
    requires AreMembers(all, fee, b, multiset(group))
    ensures IsBatch(all, fee, b, maxVout, sel)
  {
    var a := new Withdraw[|group|](i requires 0 <= i < |group| => group[i]);
    assert a[..] == group;
    SortSlice(a, CreatedUnix);
    sel := a[..];
    ghost var rest: seq<Withdraw> := [];
    if |sel| > maxVout {
      rest := sel[maxVout..];
      sel := sel[..maxVout];
    }
    assert sel + rest == a[..];
  }

  method PriceBatch(sel: seq<Withdraw>, price: nat, net: Net) returns (batch: Batch)
    ensures batch.withdrawals == sel && batch.price == price && batch.amount == Sum(WithdrawAmount, sel)
    ensures |batch.receiverTypes| == |sel|
    ensures forall i :: 0 <= i < |sel| ==> batch.receiverTypes[i] == GetAddressType(net, sel[i].to)
  {
    var amount, types := 0, [];
    for i := 0 to |sel|
      invariant amount == Sum(WithdrawAmount, sel[..i]) && |types| == i
      invariant forall k :: 0 <= k < i ==> types[k] == GetAddressType(net, sel[k].to)
    {
      SumNext(WithdrawAmount, sel, i);
      amount := amount + sel[i].amount;
      types := types + [GetAddressType(net, sel[i].to)];
    }
    assert sel[..|sel|] == sel;
    batch := Batch(sel, types, amount, price);
  }

  // ---------- What a batch guarantees ----------

  // Every chosen withdrawal can pay the batch price and is worth more than dust at that price.
  lemma BatchMembersPay(all: seq<Withdraw>, fee: NetworkFee, b: Band, maxVout: nat, sel: seq<Withdraw>, i: nat)
    requires IsBatch(all, fee, b, maxVout, sel) && i < |sel|
    ensures sel[i] in all && BandOf(fee, sel[i]) == Some(b)
    ensures sel[i].txPrice >= BandFee(fee, b) && sel[i].amount > GetDustAmount(BandFee(fee, b))
  {
    var rest :| AreMembers(all, fee, b, multiset(sel + rest)) && Ascending(CreatedUnix, sel + rest)
                && |sel| <= maxVout && (|sel| < maxVout ==> rest == []);
    var w := sel[i];
    assert (sel + rest)[i] == w;
    assert w in sel + rest && multiset(sel + rest)[w] > 0;
    assert w in multiset(all);
  }

  // A member of the band that was left out is not older than any chosen one.
  lemma NoOlderLeftOut(all: seq<Withdraw>, fee: NetworkFee, b: Band, maxVout: nat, sel: seq<Withdraw>,
                       i: nat, w: Withdraw)
    requires IsBatch(all, fee, b, maxVout, sel) && i < |sel|
    requires BandOf(fee, w) == Some(b) && multiset(sel)[w] < multiset(all)[w]
    ensures |sel| == maxVout && CreatedUnix(sel[i]) <= CreatedUnix(w)
  {
    var rest :| AreMembers(all, fee, b, multiset(sel + rest)) && Ascending(CreatedUnix, sel + rest)
                && |sel| <= maxVout && (|sel| < maxVout ==> rest == []);
    assert multiset(sel + rest)[w] == multiset(sel)[w] + multiset(rest)[w];
    assert w in multiset(rest);
    var k :| 0 <= k < |rest| && rest[k] == w;
    assert (sel + rest)[i] == sel[i] && (sel + rest)[|sel| + k] == w;
  }
}
