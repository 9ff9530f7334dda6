// Exactly which steps and runs keep every output promised to at most one transaction.
//
// Four steps can break the allocation invariant: three that add an order with vins taken from a message, and the
// one that reopens a closed order.  For each of them the invariant is kept exactly under a condition on the tables
// before the step and on the message.
module AllocationRuns {
  import opened Common
  import opened Models
  import opened WalletRows
  import opened OrderSteps
  import opened CoinSteps
  import opened WalletRuns
  import opened Allocation
  import opened Reopening
  import opened Witnesses

  // ---------- The exact condition of a step ----------

  ghost predicate CreateHarmless(db: Db, n: NewOrder, isProposer: bool) {
    CreateSendOrder(db, n, isProposer).Err? || VinsFit(db, n.order, n.vins, ToSet(n.coins))
  }

  ghost predicate RecoverHarmless(db: Db, o: Order, vins: seq<Vin>, vouts: seq<Vout>) {
    || HasOpenOrder(db, o.txid) || o.orderId in db.orders || vins == [] || vouts == []
    || VinsFit(db, o, vins, Prevs(vins))
  }

  ghost predicate PendingHarmless(db: Db, txid: string, ext: string, rec: Recovery) {
    || HasOrder(db, txid) || InsertRecovered(db, txid, rec).Err?
    || VinsFit(db, PendingOrder(rec.order.value, ext), OwnedVins(rec.vins, rec.order.value.orderId), ToSet(rec.coins))
  }

  ghost predicate ReopenHarmless(db: Db, txid: string, pid: nat) {
    var newest := NewestByTxid(db.orders, db.orderIds, txid);
    || UpdateWithdrawInitialized(db, txid, pid).Err?
    || newest.None? || db.orders[newest.value].status != Closed || NotRetaken(db, txid, newest.value)
  }

  ghost predicate Harmless(db: Db, e: Event) {
    match e
    case OrderCreated(n, isProposer) => CreateHarmless(db, n, isProposer)
    case OrderRecovered(o, vins, vouts, _) => RecoverHarmless(db, o, vins, vouts)
    case OrderPending(txid, ext, rec) => PendingHarmless(db, txid, ext, rec)
    case WithdrawInitialized(txid, pid) => ReopenHarmless(db, txid, pid)
    case _ => true
  }

  lemma CreateIff(db: Db, n: NewOrder, isProposer: bool)
    requires NoDoubleAllocation(db)
    ensures NoDoubleAllocation(After(db, CreateSendOrder(db, n, isProposer))) <==> CreateHarmless(db, n, isProposer)
  {
    var r := CreateSendOrder(db, n, isProposer);
    if r.Ok? {
      CreateAdds(db, n, isProposer);
      AddedIff(db, r.value, n.order, n.vins, ToSet(n.coins));
    }
  }

  lemma RecoverAdds(db: Db, o: Order, vins: seq<Vin>, vouts: seq<Vout>, ids: seq<nat>)
    requires !HasOpenOrder(db, o.txid)
    ensures var r := RecoverSendOrder(db, o, vins, vouts, ids);
            r.Ok? ==> Added(db, r.value, o, vins, Prevs(vins))
  {
    assert SameVins(vins, RecoverVins(db.utxos, vins));
  }

  lemma RecoverIff(db: Db, o: Order, vins: seq<Vin>, vouts: seq<Vout>, ids: seq<nat>)
    requires NoDoubleAllocation(db)
    ensures NoDoubleAllocation(After(db, RecoverSendOrder(db, o, vins, vouts, ids))) <==> RecoverHarmless(db, o, vins, vouts)
  {
    var r := RecoverSendOrder(db, o, vins, vouts, ids);
    if r.Ok? && !HasOpenOrder(db, o.txid) {
      RecoverAdds(db, o, vins, vouts, ids);
      AddedIff(db, r.value, o, vins, Prevs(vins));
    }
  }

  lemma InsertAdds(db: Db, txid: string, rec: Recovery)
    requires InsertRecovered(db, txid, rec).Ok?
    ensures var o := rec.order.value;
            Added(db, InsertRecovered(db, txid, rec).value, o, OwnedVins(rec.vins, o.orderId), ToSet(rec.coins))
  {
  }

  lemma SetPendingAdds(db: Db, d: Db, o: Order, ext: string, vins: seq<Vin>, marked: set<OutPoint>)
    requires Added(db, d, o, vins, marked)
    ensures Added(db, SetPending(d, o.orderId, ext), PendingOrder(o, ext), vins, marked)
  {
    var d' := SetPending(d, o.orderId, ext);
    assert d'.orders == db.orders[o.orderId := PendingOrder(o, ext)];
  }

  lemma PendingIff(db: Db, txid: string, ext: string, rec: Recovery)
    requires NoDoubleAllocation(db)
    ensures NoDoubleAllocation(After(db, UpdateSendOrderPending(db, txid, ext, rec))) <==> PendingHarmless(db, txid, ext, rec)
  {
    var newest := NewestByTxid(db.orders, db.orderIds, txid);
    var inserted := InsertRecovered(db, txid, rec);
    if newest.Some? {
      PendingKeeps(db, newest.value, ext);
      KeepsInvariant(db, SetPending(db, newest.value, ext));
    } else if inserted.Ok? {
      var o := rec.order.value;
      var vins := OwnedVins(rec.vins, o.orderId);
      InsertAdds(db, txid, rec);
      SetPendingAdds(db, inserted.value, o, ext, vins, ToSet(rec.coins));
      AddedIff(db, SetPending(inserted.value, o.orderId, ext), PendingOrder(o, ext), vins, ToSet(rec.coins));
    }
  }

  lemma InitializeIff(db: Db, txid: string, pid: nat)
    requires NoDoubleAllocation(db)
    ensures NoDoubleAllocation(After(db, UpdateWithdrawInitialized(db, txid, pid))) <==> ReopenHarmless(db, txid, pid)
  {
    var newest := NewestByTxid(db.orders, db.orderIds, txid);
    if UpdateWithdrawInitialized(db, txid, pid).Ok? {
      if newest.Some? && db.orders[newest.value].status == Closed {
        ReopenIff(db, txid, pid, newest.value);
      } else {
        assert db.orderIds[..|db.orderIds|] == db.orderIds;
        InitializeKeeps(db, |db.orderIds|, txid, true, pid);
      }
    }
  }

  lemma CreatedIff(build: ScriptBuilder, db: Db, e: Event)
    requires NoDoubleAllocation(db) && e.OrderCreated?
    ensures NoDoubleAllocation(Apply(build, db, e)) <==> Harmless(db, e)
  {
    CreateIff(db, e.n, e.isProposer);
  }

  lemma RecoveredIff(build: ScriptBuilder, db: Db, e: Event)
    requires NoDoubleAllocation(db) && e.OrderRecovered?
    ensures NoDoubleAllocation(Apply(build, db, e)) <==> Harmless(db, e)
  {
    RecoverIff(db, e.order, e.vins, e.vouts, e.withdrawIds);
  }

  lemma MarkedIff(build: ScriptBuilder, db: Db, e: Event)
    requires NoDoubleAllocation(db) && e.OrderPending?
    ensures NoDoubleAllocation(Apply(build, db, e)) <==> Harmless(db, e)
  {
    PendingIff(db, e.txid, e.externalTxId, e.rec);
  }

  lemma InitializedIff(build: ScriptBuilder, db: Db, e: Event)
    requires NoDoubleAllocation(db) && e.WithdrawInitialized?
    ensures NoDoubleAllocation(Apply(build, db, e)) <==> Harmless(db, e)
  {
    InitializeIff(db, e.txid, e.pid);
  }

  // A step keeps the invariant exactly when it is harmless.
  lemma AllocationIff(build: ScriptBuilder, db: Db, e: Event)
    requires NoDoubleAllocation(db)
    ensures NoDoubleAllocation(Apply(build, db, e)) <==> Harmless(db, e)
  {
    if e.OrderCreated? {
      CreatedIff(build, db, e);
    } else if e.OrderRecovered? {
      RecoveredIff(build, db, e);
    } else if e.OrderPending? {
      MarkedIff(build, db, e);
    } else if e.WithdrawInitialized? {
      InitializedIff(build, db, e);
    } else {
      SafeStepKeeps(build, db, e);
    }
  }

  // Over every run from the empty tables, no state promises an output twice exactly when every step is harmless.
  lemma NeverDoublyAllocated(build: ScriptBuilder, es: seq<Event>)
    ensures Always(NoDoubleAllocation, build, EMPTY_DB, es) <==> EachStep(Harmless, build, EMPTY_DB, es)
  {
    forall db, e | NoDoubleAllocation(db) ensures NoDoubleAllocation(Apply(build, db, e)) <==> Harmless(db, e) {
      AllocationIff(build, db, e);
    }
    AlwaysIff(NoDoubleAllocation, Harmless, build, EMPTY_DB, es);
  }

  // ---------- What the conditions come to for an order's own vins ----------

  // Every outpoint is known and marked or held, none occurs twice, and none is a vin of a live order.
  ghost predicate OwnVinsFit(db: Db, vins: seq<Vin>, marked: set<OutPoint>) {
    && (forall i :: 0 <= i < |vins| ==>
          vins[i].prev in db.utxos && (vins[i].prev in marked || Allocated(db.utxos[vins[i].prev])))
    && (forall i, j :: 0 <= i < j < |vins| ==> vins[i].prev != vins[j].prev)
    && (forall i, j :: 0 <= i < |db.vins| && 0 <= j < |vins| && Live(db, db.vins[i].orderId) ==>
          db.vins[i].prev != vins[j].prev)
  }

  lemma OwnVinsIff(db: Db, o: Order, vins: seq<Vin>, marked: set<OutPoint>)
    requires Owned(db) && o.orderId !in db.orders && !Final(o.status)
    requires forall i :: 0 <= i < |vins| ==> vins[i].orderId == o.orderId
    ensures VinsFit(db, o, vins, marked) <==> OwnVinsFit(db, vins, marked)
  {
    assert LiveWith(db, o, o.orderId) && !SettledWith(db, o, o.orderId);
    assert forall i :: 0 <= i < |db.vins| ==> db.vins[i].orderId != o.orderId;
    assert forall i, j :: 0 <= i < |db.vins| && 0 <= j < |vins| ==>
      (Clash(db, o, db.vins[i].orderId, vins[j].orderId) <==> Live(db, db.vins[i].orderId));
    assert forall i, j :: 0 <= i < j < |vins| ==> Clash(db, o, vins[i].orderId, vins[j].orderId);
  }

  // The outputs that a recovered order spends are known, different, and not spent by a live order.
  ghost predicate FreshInputs(db: Db, vins: seq<Vin>) {
    && (forall i :: 0 <= i < |vins| ==> vins[i].prev in db.utxos)
    && (forall i, j :: 0 <= i < j < |vins| ==> vins[i].prev != vins[j].prev)
    && (forall i, j :: 0 <= i < |db.vins| && 0 <= j < |vins| && Live(db, db.vins[i].orderId) ==>
          db.vins[i].prev != vins[j].prev)
  }

  lemma RecoverKeepsIff(db: Db, o: Order, vins: seq<Vin>, vouts: seq<Vout>, ids: seq<nat>)
    requires NoDoubleAllocation(db) && !HasOpenOrder(db, o.txid) && RecoverSendOrder(db, o, vins, vouts, ids).Ok?
    requires !Final(o.status) && forall i :: 0 <= i < |vins| ==> vins[i].orderId == o.orderId
    ensures NoDoubleAllocation(RecoverSendOrder(db, o, vins, vouts, ids).value) <==> FreshInputs(db, vins)
  {
    RecoverIff(db, o, vins, vouts, ids);
    OwnVinsIff(db, o, vins, Prevs(vins));
    assert forall i :: 0 <= i < |vins| ==> vins[i].prev in Prevs(vins);
  }

  // A rebuilt pending order marks the coins of one list and stores the vins of another.
  lemma PendingKeepsIff(db: Db, txid: string, ext: string, rec: Recovery)
    requires NoDoubleAllocation(db) && !HasOrder(db, txid) && InsertRecovered(db, txid, rec).Ok?
    requires !Final(rec.order.value.status)
    ensures UpdateSendOrderPending(db, txid, ext, rec).Ok?
    ensures NoDoubleAllocation(UpdateSendOrderPending(db, txid, ext, rec).value)
            <==> OwnVinsFit(db, rec.vins, ToSet(rec.coins))
  {
    var o := rec.order.value;
    PendingIff(db, txid, ext, rec);
    OwnVinsIff(db, PendingOrder(o, ext), OwnedVins(rec.vins, o.orderId), ToSet(rec.coins));
    OwnedVinsFit(db, rec.vins, o.orderId, ToSet(rec.coins));
  }

  lemma OwnedVinsFit(db: Db, vins: seq<Vin>, orderId: string, marked: set<OutPoint>)
    ensures OwnVinsFit(db, OwnedVins(vins, orderId), marked) <==> OwnVinsFit(db, vins, marked)
  {
  }

  // An order of a voter marks the coins of one list and stores the vins of another as well.
  lemma CreateKeepsIff(db: Db, n: NewOrder, isProposer: bool)
    requires NoDoubleAllocation(db) && CreateSendOrder(db, n, isProposer).Ok? && !Final(n.order.status)
    requires forall i :: 0 <= i < |n.vins| ==> n.vins[i].orderId == n.order.orderId
    ensures NoDoubleAllocation(CreateSendOrder(db, n, isProposer).value) <==> OwnVinsFit(db, n.vins, ToSet(n.coins))
  {
    CreateIff(db, n, isProposer);
    OwnVinsIff(db, n.order, n.vins, ToSet(n.coins));
  }

  // ---------- The node's own runs ----------

  // Orders as the wallet server builds them, messages about known orders, and no closed order reopened.
  ghost predicate Own(db: Db, e: Event) {
    match e
    case OrderCreated(n, _) => ProperOrder(n)
    case OrderRecovered(o, _, _, _) => HasOpenOrder(db, o.txid)
    case OrderPending(txid, _, _) => HasOrder(db, txid)
    case WithdrawInitialized(txid, _) => NewestOpen(db, |db.orderIds|, txid)
    case _ => true
  }

  // An order as the wallet server builds it is always harmless.
  lemma ProperIsHarmless(db: Db, n: NewOrder, isProposer: bool)
    requires NoDoubleAllocation(db) && ProperOrder(n)
    ensures Harmless(db, OrderCreated(n, isProposer))
  {
    CreateKeeps(db, n, isProposer);
    CreateIff(db, n, isProposer);
  }

  lemma OwnIsHarmless(db: Db, e: Event)
    requires NoDoubleAllocation(db) && Own(db, e)
    ensures Harmless(db, e)
  {
    match e {
      case OrderCreated(n, isProposer) => ProperIsHarmless(db, n, isProposer);
      case WithdrawInitialized(_, _) => assert db.orderIds[..|db.orderIds|] == db.orderIds;
      case _ =>
    }
  }

  // Over every run of such steps no output is ever promised to two transactions.
  lemma NodeAllocatesOnce(build: ScriptBuilder, es: seq<Event>)
    requires EachStep(Own, build, EMPTY_DB, es)
    ensures Always(NoDoubleAllocation, build, EMPTY_DB, es)
  {
    forall db, e | NoDoubleAllocation(db) && Own(db, e) ensures NoDoubleAllocation(Apply(build, db, e)) {
      OwnIsHarmless(db, e);
      AllocationIff(build, db, e);
    }
    AlwaysKept(NoDoubleAllocation, Own, build, EMPTY_DB, es);
  }

  // ---------- Runs whose last step promises a coin twice ----------

  lemma OneOrderAllocated(build: ScriptBuilder, isProposer: bool)
    ensures NoDoubleAllocation(Run(build, EMPTY_DB, OneOrder(isProposer)))
  {
    FundingFacts(build);
    FirstAllocated(build, Run(build, EMPTY_DB, Funding()), isProposer);
    RunSnoc(build, EMPTY_DB, Funding(), OrderCreated(Paying("first", "tx1", 0, 7), isProposer));
  }

  lemma FirstAllocated(build: ScriptBuilder, db: Db, isProposer: bool)
    requires Funded(db)
    ensures NoDoubleAllocation(Apply(build, db, OrderCreated(Paying("first", "tx1", 0, 7), isProposer)))
  {
    var n := Paying("first", "tx1", 0, 7);
    CreateKeeps(db, n, isProposer);
    Pay(db, "first", "tx1", 0, 7, isProposer);
    Created(build, db, n, isProposer);
  }

  // Another node's order on a coin that an aggregating order of this node holds.
  function ForeignOrder(status: Status): Order {
    Order("second", "tx2", Withdrawal, status, 0, 0, "")
  }

  function ForeignVins(): seq<Vin> {
    [Vin("second", Coin(0).outPoint, P2WPKH, Init)]
  }

  function ForeignVouts(): seq<Vout> {
    [Vout("second", "tx2", 0, Some(8), 490_000, "receiver", Init)]
  }

  lemma ForeignVinsTaken(db: Db, vins: seq<Vin>)
    requires OneOrdered(db, Aggregating) && vins != [] && vins[0].prev == Coin(0).outPoint
    ensures exists i, j :: 0 <= i < |db.vins| && 0 <= j < |vins| && Live(db, db.vins[i].orderId) && db.vins[i].prev == vins[j].prev
  {
    assert Live(db, db.vins[0].orderId) && db.vins[0].prev == vins[0].prev;
  }

  lemma RecoveredOverTaken(db: Db)
    requires OneOrdered(db, Aggregating) && NoDoubleAllocation(db)
    ensures var r := RecoverSendOrder(db, ForeignOrder(Init), ForeignVins(), ForeignVouts(), [8]);
            r.Ok? && !NoDoubleAllocation(r.value)
  {
    assert !HasOpenOrder(db, "tx2");
    ForeignVinsTaken(db, ForeignVins());
    RecoverKeepsIff(db, ForeignOrder(Init), ForeignVins(), ForeignVouts(), [8]);
  }

  // The message names the free coin and spends the held one.
  function ForeignRecovery(): Recovery {
    Recovery(Some(ForeignOrder(Init)), [Coin(1).outPoint], ForeignVins(), ForeignVouts(), [8])
  }

  lemma ForeignInserts(db: Db)
    requires OneOrdered(db, Aggregating)
    ensures !HasOrder(db, "tx2") && InsertRecovered(db, "tx2", ForeignRecovery()).Ok?
  {
    assert CoinsFree(db.utxos, ForeignRecovery().coins);
  }

  lemma PendingOverTaken(db: Db)
    requires OneOrdered(db, Aggregating) && NoDoubleAllocation(db)
    ensures var r := UpdateSendOrderPending(db, "tx2", "", ForeignRecovery());
            r.Ok? && !NoDoubleAllocation(r.value)
  {
    ForeignInserts(db);
    ForeignVinsTaken(db, ForeignRecovery().vins);
    PendingKeepsIff(db, "tx2", "", ForeignRecovery());
  }

  // So does a proposal whose coins are not those of its vins.
  function ForeignProposal(): NewOrder {
    NewOrder(ForeignOrder(Aggregating), [Coin(1).outPoint], [8], [], ForeignVins(), ForeignVouts())
  }

  lemma ProposalOverTaken(db: Db)
    requires OneOrdered(db, Aggregating) && NoDoubleAllocation(db)
    ensures var r := CreateSendOrder(db, ForeignProposal(), false);
            r.Ok? && !NoDoubleAllocation(r.value)
  {
    assert CoinsFree(db.utxos, ForeignProposal().coins) && WithdrawsTakeable(db.withdraws, [8], false);
    ForeignVinsTaken(db, ForeignProposal().vins);
    CreateKeepsIff(db, ForeignProposal(), false);
  }

  // A step that is the first of a run to promise an output twice.
  ghost predicate FirstToPromiseTwice(build: ScriptBuilder, es: seq<Event>, e: Event) {
    NoDoubleAllocation(Run(build, EMPTY_DB, es)) && !NoDoubleAllocation(Apply(build, Run(build, EMPTY_DB, es), e))
  }

  lemma RecoverStepBreaks(build: ScriptBuilder, db: Db, o: Order, vins: seq<Vin>, vouts: seq<Vout>, ids: seq<nat>)
    requires var r := RecoverSendOrder(db, o, vins, vouts, ids); r.Ok? && !NoDoubleAllocation(r.value)
    ensures !NoDoubleAllocation(Apply(build, db, OrderRecovered(o, vins, vouts, ids)))
  {
  }

  lemma PendingStepBreaks(build: ScriptBuilder, db: Db, txid: string, ext: string, rec: Recovery)
    requires var r := UpdateSendOrderPending(db, txid, ext, rec); r.Ok? && !NoDoubleAllocation(r.value)
    ensures !NoDoubleAllocation(Apply(build, db, OrderPending(txid, ext, rec)))
  {
  }

  lemma CreateStepBreaks(build: ScriptBuilder, db: Db, n: NewOrder, isProposer: bool)
    requires var r := CreateSendOrder(db, n, isProposer); r.Ok? && !NoDoubleAllocation(r.value)
    ensures !NoDoubleAllocation(Apply(build, db, OrderCreated(n, isProposer)))
  {
  }

  lemma ProposalBreaks(build: ScriptBuilder, es: seq<Event>)
    requires OneOrdered(Run(build, EMPTY_DB, es), Aggregating) && NoDoubleAllocation(Run(build, EMPTY_DB, es))
    ensures FirstToPromiseTwice(build, es, OrderCreated(ForeignProposal(), false))
  {
    var db := Run(build, EMPTY_DB, es);
    ProposalOverTaken(db);
    CreateStepBreaks(build, db, ForeignProposal(), false);
  }

  lemma RecoveryBreaks(build: ScriptBuilder, es: seq<Event>)
    requires OneOrdered(Run(build, EMPTY_DB, es), Aggregating) && NoDoubleAllocation(Run(build, EMPTY_DB, es))
    ensures FirstToPromiseTwice(build, es, OrderRecovered(ForeignOrder(Init), ForeignVins(), ForeignVouts(), [8]))
  {
    var db := Run(build, EMPTY_DB, es);
    RecoveredOverTaken(db);
    RecoverStepBreaks(build, db, ForeignOrder(Init), ForeignVins(), ForeignVouts(), [8]);
  }

  lemma PendingBreaks(build: ScriptBuilder, es: seq<Event>)
    requires OneOrdered(Run(build, EMPTY_DB, es), Aggregating) && NoDoubleAllocation(Run(build, EMPTY_DB, es))
    ensures FirstToPromiseTwice(build, es, OrderPending("tx2", "", ForeignRecovery()))
  {
    var db := Run(build, EMPTY_DB, es);
    PendingOverTaken(db);
    PendingStepBreaks(build, db, "tx2", "", ForeignRecovery());
  }

  // Recovering another node's order, rebuilding one from a pending message and a voter's copy of a proposal can
  // each promise a held coin again.
  lemma MessagesPromiseTwice(build: ScriptBuilder)
    ensures FirstToPromiseTwice(build, OneOrder(false), OrderRecovered(ForeignOrder(Init), ForeignVins(), ForeignVouts(), [8]))
    ensures FirstToPromiseTwice(build, OneOrder(false), OrderPending("tx2", "", ForeignRecovery()))
    ensures FirstToPromiseTwice(build, OneOrder(false), OrderCreated(ForeignProposal(), false))
  {
    OneOrderFacts(build, false);
    OneOrderAllocated(build, false);
    RecoveryBreaks(build, OneOrder(false));
    PendingBreaks(build, OneOrder(false));
    ProposalBreaks(build, OneOrder(false));
  }
}
