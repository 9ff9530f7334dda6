// When withdrawals are batched, in waiting times and numbers of withdrawals.
module BatchLaws {
  import opened Common
  import opened Models
  import opened Sums
  import opened BatchSelection

  const SECOND := 1_000_000_000

  // ---------- The bands in numbers ----------

  // A withdrawal accepts a price, and its amount exceeds what is dust at that price.
  predicate Accepts(w: Withdraw, price: nat) {
    w.txPrice >= price && w.amount > 93 * price
  }

  // A withdrawal joins the best band whose fee its price reaches, or none when it is dust there.
  predicate Joins(fee: NetworkFee, b: Band, w: Withdraw) {
    match b
    case Fast => Accepts(w, fee.fastest)
    case Medium => w.txPrice < fee.fastest && Accepts(w, fee.halfHour)
    case Slow => w.txPrice < fee.fastest && w.txPrice < fee.halfHour && Accepts(w, fee.hour)
  }

  lemma JoinsIff(fee: NetworkFee, b: Band, w: Withdraw)
    ensures BandOf(fee, w) == Some(b) <==> Joins(fee, b, w)
  {
  }

  function Members(all: seq<Withdraw>, fee: NetworkFee, b: Band): (ws: seq<Withdraw>)
    ensures forall w :: w in ws <==> w in all && Joins(fee, b, w)
  {
    if all == [] then []
    else
      var front, last := all[..|all| - 1], all[|all| - 1];
      assert all == front + [last];
      Members(front, fee, b) + (if Joins(fee, b, last) then [last] else [])
  }

  lemma {:induction false} MembersCount(all: seq<Withdraw>, fee: NetworkFee, b: Band, w: Withdraw)
    ensures multiset(Members(all, fee, b))[w] == if Joins(fee, b, w) then multiset(all)[w] else 0
    decreases |all|
  {
    if all != [] {
      var front, last := all[..|all| - 1], all[|all| - 1];
      assert all == front + [last];
      MembersCount(front, fee, b, w);
    }
  }

  // Two lists of the members of a band are equally long.
  lemma MembersSize(all: seq<Withdraw>, fee: NetworkFee, b: Band, ws: seq<Withdraw>)
    requires AreMembers(all, fee, b, multiset(ws))
    ensures |ws| == |Members(all, fee, b)|
  {
    forall w ensures multiset(ws)[w] == multiset(Members(all, fee, b))[w] {
      JoinsIff(fee, b, w);
      MembersCount(all, fee, b, w);
    }
    assert multiset(ws) == multiset(Members(all, fee, b));
    assert |multiset(ws)| == |ws|;
  }

  // ---------- Batches in numbers ----------

  // A batch has as many members as its band has, up to the output limit, and no member of the band is older than its
  // first one by a second.
  lemma BatchInNumbers(all: seq<Withdraw>, fee: NetworkFee, b: Band, maxVout: nat, sel: seq<Withdraw>)
    requires IsBatch(all, fee, b, maxVout, sel)
    ensures |sel| == if |Members(all, fee, b)| < maxVout then |Members(all, fee, b)| else maxVout
    ensures forall w :: w in sel ==> w in all && Joins(fee, b, w)
    ensures sel != [] ==> forall w :: w in all && Joins(fee, b, w) ==> sel[0].createdAt < w.createdAt + SECOND
  {
    var rest :| AreMembers(all, fee, b, multiset(sel + rest)) && Ascending(CreatedUnix, sel + rest)
                && |sel| <= maxVout && (|sel| < maxVout ==> rest == []);
    MembersSize(all, fee, b, sel + rest);
    forall w | w in sel ensures w in all && Joins(fee, b, w) {
      var i :| 0 <= i < |sel| && sel[i] == w;
      BatchMembersPay(all, fee, b, maxVout, sel, i);
      JoinsIff(fee, b, w);
    }
    if sel != [] {
      forall w | w in all && Joins(fee, b, w) ensures sel[0].createdAt < w.createdAt + SECOND {
        FirstIsOldest(all, fee, b, sel + rest, w);
      }
    }
  }

  lemma FirstIsOldest(all: seq<Withdraw>, fee: NetworkFee, b: Band, ws: seq<Withdraw>, w: Withdraw)
    requires AreMembers(all, fee, b, multiset(ws)) && Ascending(CreatedUnix, ws)
    requires w in all && Joins(fee, b, w)
    ensures ws != [] && ws[0].createdAt < w.createdAt + SECOND
  {
    JoinsIff(fee, b, w);
    assert w in multiset(all) && w in multiset(ws);
    var i :| 0 <= i < |ws| && ws[i] == w;
    assert CreatedUnix(ws[0]) <= CreatedUnix(ws[i]);
  }

  // A band that is not ready has fewer members than start at once, and none of them has waited long: past the second
  // waiting time none, past the first none if there are a third as many as start at once.
  lemma UnreadyInNumbers(all: seq<Withdraw>, fee: NetworkFee, p: Policy, b: Band, w: Withdraw)
    requires Unready(all, fee, p, b) && p.maxVout >= 1
    requires w in all && Joins(fee, b, w)
    ensures p.now - w.createdAt < p.wait2 + SECOND
    ensures p.maxVout >= p.immediateCount ==> |Members(all, fee, b)| < p.immediateCount
    ensures p.maxVout >= p.immediateCount / 3 && |Members(all, fee, b)| >= p.immediateCount / 3 ==>
              p.now - w.createdAt < p.wait1 + SECOND
  {
    var sel :| IsBatch(all, fee, b, p.maxVout, sel) && (sel == [] || !ShouldProcess(p, sel));
    BatchInNumbers(all, fee, b, p.maxVout, sel);
    assert w in Members(all, fee, b);
  }

  // A batch that is started is large, or large enough for its age, or old; every band before its own is not ready.
  lemma ReadyInNumbers(all: seq<Withdraw>, fee: NetworkFee, p: Policy, net: Net, b: Band, batch: Batch)
    requires BatchOfBand(all, fee, p, net, b, batch)
    ensures var ws := batch.withdrawals;
            && ws != [] && (forall w :: w in ws ==> w in all && Joins(fee, b, w))
            && |ws| == (if |Members(all, fee, b)| < p.maxVout then |Members(all, fee, b)| else p.maxVout)
            && (|| |ws| >= p.immediateCount
                || (p.now - ws[0].createdAt > p.wait1 && |ws| >= p.immediateCount / 3)
                || p.now - ws[0].createdAt > p.wait2)
            && batch.price == (match b case Fast => fee.fastest case Medium => fee.halfHour case Slow => fee.hour)
            && |batch.receiverTypes| == |ws|
            && forall i :: 0 <= i < |ws| ==>
                 batch.receiverTypes[i] == if net(ws[i].to).Some? then net(ws[i].to).value.kind else OtherType
    ensures forall w :: w in all && p.now - w.createdAt >= p.wait2 + SECOND ==>
              && (b != Fast ==> !Joins(fee, Fast, w))
              && (b == Slow ==> !Joins(fee, Medium, w))
  {
    BatchInNumbers(all, fee, b, p.maxVout, batch.withdrawals);
    forall w | w in all && p.now - w.createdAt >= p.wait2 + SECOND
      ensures (b != Fast ==> !Joins(fee, Fast, w)) && (b == Slow ==> !Joins(fee, Medium, w))
    {
      if b != Fast && Joins(fee, Fast, w) {
        UnreadyInNumbers(all, fee, p, Fast, w);
      }
      if b == Slow && Joins(fee, Medium, w) {
        UnreadyInNumbers(all, fee, p, Medium, w);
      }
    }
  }

  // Nothing payable past the first waiting time and no band with as many as start at once: no batch.
  lemma NoEarlyBatch(all: seq<Withdraw>, fee: NetworkFee, p: Policy, net: Net, b: Band, batch: Batch)
    requires BatchOfBand(all, fee, p, net, b, batch) && p.wait1 <= p.wait2
    ensures |Members(all, fee, b)| >= p.immediateCount
            || exists w :: w in all && Joins(fee, b, w) && p.now - w.createdAt > p.wait1
  {
    ReadyInNumbers(all, fee, p, net, b, batch);
    assert batch.withdrawals[0] in batch.withdrawals;
  }
}
