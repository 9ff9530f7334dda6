// Runs of the wallet server: its ticks, in any order with everything else that happens to the tables.
module ServerRuns {
  import opened Common
  import opened Models
  import opened WalletRows
  import opened OrderSteps
  import opened CoinSteps
  import opened WalletRuns
  import opened Allocation
  import opened AllocationRuns
  import opened Carriers
  import opened Guards
  import opened Keys
  import opened OrderGraph
  import opened Rollback
  import opened WalletServer

  // A tick, in whatever setting it finds, or a step of another part of the node.
  datatype Move = Tick(t: Setting, sigStatus: bool, sigFinishHeight: nat, r: Ending) | Sees(e: Event)

  // Steps of the node itself: about orders that it knows, and without reopening.
  ghost predicate Expected(db: Db, e: Event) {
    Own(db, e) && Careful(db, e)
  }

  ghost predicate Moves(build: ScriptBuilder, db: Db, db': Db, m: Move) {
    match m
    case Tick(t, sigStatus, height, r) => Ticked(db, db', t, GateOf(t, sigStatus, height), r)
    case Sees(e) => Expected(db, e) && db' == Apply(build, db, e)
  }

  // No output is promised to two transactions, no withdrawal paid by two orders, and rows carry their keys.
  ghost predicate Safe(db: Db) {
    NoDoubleAllocation(db) && InOrder(db) && Keyed(db)
  }

  lemma SeesKeeps(build: ScriptBuilder, db: Db, e: Event)
    requires Safe(db) && Expected(db, e)
    ensures Safe(Apply(build, db, e))
  {
    OwnIsHarmless(db, e);
    AllocationIff(build, db, e);
    CarefulStep(build, db, e);
    KeyedStep(build, db, e);
  }

  lemma CleanIsSafe(db: Db)
    requires Safe(db)
    ensures Safe(CleanProcessingWithdraw(db))
  {
    CleanKeeps(db);
    CleanedReserved(db);
    ReservedKept(db, CleanProcessingWithdraw(db));
    CleanedMoves(db);
    CleanedKeyed(db);
  }

  // The vouts of a round's order pay its withdrawals in turn, or none.
  lemma RoundVouts(db: Db, db': Db, t: Setting, r: Ending)
    requires Launched(db, db', t, r) && r.Running? && PaysWithdrawals(db, t.chain.net, r.n, r.tx)
    ensures ProperVouts(r.n) || PaysNone(r.n)
  {
    if r.n.order.orderType == Withdrawal {
      var fee :| PaysInTurn(db, t.chain.net, r.n.withdrawIds, r.tx, fee);
      assert ProperVouts(r.n);
    } else {
      assert PaysNone(r.n);
    }
  }

  // The withdrawals that a round's order takes all wait.  It pays none of them a second time exactly when no unclosed
  // order pays one already, and no waiting withdrawal is paid on the server's runs.
  lemma RoundPaysIff(db: Db, db': Db, t: Setting, r: Ending)
    requires PaidOnce(db) && Launched(db, db', t, r) && r.Running? && r.n.order.orderType == Withdrawal
    requires PaysWithdrawals(db, t.chain.net, r.n, r.tx)
    ensures forall id :: id in r.n.withdrawIds ==> id in db.withdraws && db.withdraws[id].status == Create
    ensures PaidOnce(db') <==> forall id :: id in r.n.withdrawIds ==> !PaidByUnclosed(db, id)
    ensures WaitingUnpaid(db) ==> PaidOnce(db')
  {
    var fee :| PaysInTurn(db, t.chain.net, r.n.withdrawIds, r.tx, fee);
    ProposerPaysIff(db, r.n);
    if WaitingUnpaid(db) {
      ProposerPaysOnce(db, r.n);
    }
  }

  // The order of a round takes withdrawals that wait, so it pays none of them a second time.
  lemma LaunchKeeps(db: Db, db': Db, t: Setting, r: Ending)
    requires Safe(db) && Launched(db, db', t, r) && (r.Running? ==> PaysWithdrawals(db, t.chain.net, r.n, r.tx))
    ensures Safe(db')
  {
    if r.Running? {
      RoundVouts(db, db', t, r);
      CreateKeeps(db, r.n, true);
      CreateInOrder(db, r.n);
      CreateKeyed(db, r.n, true);
    }
  }

  lemma TickKeeps(db: Db, db': Db, t: Setting, gate: Gate, r: Ending)
    requires Safe(db) && Ticked(db, db', t, gate, r)
    ensures Safe(db')
  {
    CleanIsSafe(db);
    if gate.Go? {
      LaunchKeeps(CleanProcessingWithdraw(db), db', t, r);
    }
  }

  lemma MoveKeeps(build: ScriptBuilder, db: Db, db': Db, m: Move)
    requires Safe(db) && Moves(build, db, db', m)
    ensures Safe(db')
  {
    match m {
      case Tick(t, sigStatus, height, r) => TickKeeps(db, db', t, GateOf(t, sigStatus, height), r);
      case Sees(e) => SeesKeeps(build, db, e);
    }
  }

  // A run of the server: the databases before and after each move.
  ghost predicate ServerRun(build: ScriptBuilder, dbs: seq<Db>, ms: seq<Move>) {
    && |dbs| == |ms| + 1 && dbs[0] == EMPTY_DB
    && forall k :: 0 <= k < |ms| ==> Moves(build, dbs[k], dbs[k + 1], ms[k])
  }

  // Every database on the way is safe.
  lemma {:induction false} ServerIsSafe(build: ScriptBuilder, dbs: seq<Db>, ms: seq<Move>, k: nat)
    requires ServerRun(build, dbs, ms) && k < |dbs|
    ensures Safe(dbs[k])
  {
    if k > 0 {
      ServerIsSafe(build, dbs, ms, k - 1);
      assert Moves(build, dbs[k - 1], dbs[k - 1 + 1], ms[k - 1]);
      MoveKeeps(build, dbs[k - 1], dbs[k], ms[k - 1]);
    }
  }

  // An order that a tick adds on such a run was added by a proposer in sync, at a fit fee, after both waits and with no
  // signature in progress; a node that does not propose never adds one.
  lemma TicksOfTheProposer(build: ScriptBuilder, dbs: seq<Db>, ms: seq<Move>, k: nat, id: string)
    requires ServerRun(build, dbs, ms) && k < |ms| && ms[k].Tick?
    requires id in dbs[k + 1].orders && id !in dbs[k].orders
    ensures var Tick(t, sigStatus, height, r) := ms[k];
            && t.isProposer && !sigStatus && !t.l2Syncing && !t.btcSyncing && 0 < t.fee.fastest <= t.maxNetworkFee
            && t.l2Height > t.epochHeight + 5 && t.l2Height > height + 5
            && id == t.orderId && r.Running? && dbs[k + 1].orders[id] == r.n.order && dbs[k + 1].orderIds == dbs[k].orderIds + [id]
  {
    assert Moves(build, dbs[k], dbs[k + 1], ms[k]);
    TickAddsIff(dbs[k], dbs[k + 1], ms[k].t, ms[k].sigStatus, ms[k].sigFinishHeight, ms[k].r);
  }

  // ---------- Rolling back on such runs ----------

  lemma FreshIdIsUnused(db: Db, id: string)
    requires Owned(db) && Keyed(db) && id !in db.orders && id != ""
    ensures UnusedId(db, id)
  {
  }

  // Cleaning the order that a server has just saved under a fresh id restores what was spendable and every status.
  lemma ServerRollsBack(build: ScriptBuilder, dbs: seq<Db>, ms: seq<Move>, k: nat, n: NewOrder)
    requires ServerRun(build, dbs, ms) && k < |dbs| && n.order.orderId != ""
    requires ProperOrder(n) && CreateSendOrder(dbs[k], n, true).Ok?
    requires forall x :: x in dbs[k].orders ==> dbs[k].orders[x].status != Aggregating
    ensures SameStatuses(dbs[k], CleanProcessingWithdraw(CreateSendOrder(dbs[k], n, true).value))
  {
    ServerIsSafe(build, dbs, ms, k);
    FreshIdIsUnused(dbs[k], n.order.orderId);
    RollbackByCleaning(dbs[k], n);
  }
}
