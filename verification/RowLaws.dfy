// What the steps on coins and safebox tasks do to every row, field by field.
module RowLaws {
  import opened Common
  import opened Models
  import opened WalletRows
  import opened OrderSteps
  import opened CoinSteps
  import opened TaskSteps
  import opened OrderLaws

  // ---------- Coins ----------

  // A coin becomes processed unless it is unknown, pending or spent; it becomes spent unless it is unknown, and keeps its
  // block if it was spent before.
  lemma SetCoinLaw(db: Db, op: OutPoint, block: nat)
    ensures UpdateUtxoStatusProcessed(db, op)
            == if op !in db.utxos then Err(NotFound)
               else if db.utxos[op].status in {CoinPending, CoinSpent} then Err(BadStatus)
               else Ok(db.(utxos := db.utxos[op := db.utxos[op].(status := CoinProcessed)]))
    ensures op !in db.utxos ==> UpdateUtxoStatusSpent(db, op, block) == Err(NotFound)
    ensures op in db.utxos ==>
              && UpdateUtxoStatusSpent(db, op, block).Ok?
              && var db' := UpdateUtxoStatusSpent(db, op, block).value;
                 db' == db.(utxos := db'.utxos)
                 && Rows(db.utxos, db'.utxos, (x: OutPoint, u: Utxo) =>
                      if x == op && u.status != CoinSpent then u.(status := CoinSpent, spentBlock := block) else u)
  {
  }

  // The known coins among the inputs of a transaction are spent in its block, unless they were spent before.
  lemma SpendLaw(db: Db, vins: seq<Vin>, block: nat)
    ensures var db' := UpdateUtxoStatusSpentByVins(db, vins, block);
            db' == db.(utxos := db'.utxos)
            && Rows(db.utxos, db'.utxos, (op: OutPoint, u: Utxo) =>
                 if u.status != CoinSpent && exists i :: 0 <= i < |vins| && vins[i].prev == op
                 then u.(status := CoinSpent, spentBlock := block) else u)
  {
  }

  // A found coin replaces its row but for the status.  A confirmed one is processed at once when its deposit is known,
  // with a script built for the depositor if it needs one, and dropped when it is a deposit of an invalid size.
  lemma FoundLaw(db: Db, f: Found, build: ScriptBuilder)
    ensures var op := f.utxo.outPoint;
            var status := if op in db.utxos then db.utxos[op].status else f.utxo.status;
            var known := db.utxos[op := f.utxo.(status := status)];
            var processed := f.utxo.(status := CoinProcessed, source := FromDeposit);
            var r := AddUtxo(db, f, build);
            if status != CoinConfirmed then r == Ok(db.(utxos := known))
            else if op in db.deposits then
              if f.utxo.receiverType != P2WSH || f.utxo.subScript != [] then r == Ok(db.(utxos := db.utxos[op := processed]))
              else
                var script := build(db.deposits[op].address);
                r == if script.None? then Err(BadScript)
                     else Ok(db.(utxos := db.utxos[op := processed.(subScript := script.value)]))
            else r == if f.isDeposit && !(f.minSize <= f.noWitnessSize <= f.maxSize) then Ok(db) else Ok(db.(utxos := known))
    ensures SavesDeposit(db, f)
            <==> var op := f.utxo.outPoint;
                 && (if op in db.utxos then db.utxos[op].status else f.utxo.status) == CoinConfirmed
                 && op !in db.deposits && f.isDeposit && f.minSize <= f.noWitnessSize <= f.maxSize
  {
  }

  // A script is set on a known coin, and its deposit no longer asks for one.
  lemma ScriptLaw(db: Db, op: OutPoint, evmAddr: string, build: ScriptBuilder)
    ensures var script := build(evmAddr);
            UpdateUtxoSubScript(db, op, evmAddr, build)
            == if script.None? then Err(BadScript)
               else if op !in db.utxos then Err(NotFound)
               else if op !in db.deposits then Ok(db.(utxos := db.utxos[op := db.utxos[op].(subScript := script.value)]))
               else Ok(db.(utxos := db.utxos[op := db.utxos[op].(subScript := script.value)],
                           deposits := db.deposits[op := db.deposits[op].(needFetchSubScript := false)]))
  {
  }

  // A deposit's coin is processed unless it is unknown or held.  Its result is recorded once, and asks for a script
  // exactly when the coin is unknown or a script coin without one.
  lemma DepositLaw(db: Db, op: OutPoint, address: string, amount: nat, blockHash: string)
    ensures var db' := AddDepositResult(db, op, address, amount, blockHash);
            var need := op !in db.utxos || (db.utxos[op].receiverType == P2WSH && db.utxos[op].subScript == []);
            && db' == db.(utxos := db'.utxos, deposits := db'.deposits)
            && Rows(db.utxos, db'.utxos, (x: OutPoint, u: Utxo) =>
                 if x == op && u.status !in {CoinPending, CoinSpent} then u.(status := CoinProcessed) else u)
            && db'.deposits == db.deposits[op := if op in db.deposits then db.deposits[op].(needFetchSubScript := need)
                                                 else DepositResult(address, amount, blockHash, need)]
  {
  }

  // ---------- Safebox tasks ----------

  predicate Open(s: Status) {
    s !in {Processed, Completed, Closed}
  }

  // The task at a place of the list is the first one that a query finds.
  ghost predicate IsFirst(db: Db, query: Task -> bool, k: nat) {
    && k < |db.taskIds| && db.taskIds[k] in db.tasks && query(db.tasks[db.taskIds[k]])
    && forall j :: 0 <= j < k && db.taskIds[j] in db.tasks ==> !query(db.tasks[db.taskIds[j]])
  }

  lemma {:induction false} FirstIs(tasks: map<nat, Task>, ids: seq<nat>, query: Task -> bool, k: nat)
    requires k < |ids| && ids[k] in tasks && query(tasks[ids[k]])
    requires forall j :: 0 <= j < k && ids[j] in tasks ==> !query(tasks[ids[j]])
    ensures FirstTask(tasks, ids, query) == Some(ids[k])
    decreases k
  {
    if k > 0 {
      FirstIs(tasks, ids[1..], query, k - 1);
    }
  }

  lemma OpenAt(db: Db, address: string, k: nat)
    ensures IsFirst(db, (t: Task) => t.depositAddress == address && Open(t.status), k) ==>
              FirstTask(db.tasks, db.taskIds, ProcessingByAddress(address)) == Some(db.taskIds[k])
    ensures IsFirst(db, (t: Task) => t.timelockAddress == address && Open(t.status), k) ==>
              FirstTask(db.tasks, db.taskIds, ProcessingByTimelockAddress(address)) == Some(db.taskIds[k])
    ensures IsFirst(db, (t: Task) => t.timelockTxid == address && t.status == Init, k) ==>
              FirstTask(db.tasks, db.taskIds, InitByTimelockTxid(address)) == Some(db.taskIds[k])
  {
    if IsFirst(db, (t: Task) => t.depositAddress == address && Open(t.status), k) {
      FirstIs(db.tasks, db.taskIds, ProcessingByAddress(address), k);
    }
    if IsFirst(db, (t: Task) => t.timelockAddress == address && Open(t.status), k) {
      FirstIs(db.tasks, db.taskIds, ProcessingByTimelockAddress(address), k);
    }
    if IsFirst(db, (t: Task) => t.timelockTxid == address && t.status == Init, k) {
      FirstIs(db.tasks, db.taskIds, InitByTimelockTxid(address), k);
    }
  }

  // A deposit of the exact amount at or before the deadline funds the waiting task of its address, a later deposit of any
  // amount closes it, and every other deposit is ignored.
  lemma FundingLaw(db: Db, txid: string, address: string, out: nat, amount: nat, now: int, k: nat)
    requires IsFirst(db, (t: Task) => t.depositAddress == address && Open(t.status), k)
    ensures var id := db.taskIds[k];
            var t := db.tasks[id];
            UpdateSafeboxTaskReceived(db, txid, address, out, amount, now)
            == if t.status == Create && now > t.deadline then db.(tasks := db.tasks[id := t.(status := Closed)])
               else if t.status == Create && amount == t.amount
               then db.(tasks := db.tasks[id := t.(status := Received, fundingTxid := txid, fundingOutIndex := out)])
               else db
  {
    OpenAt(db, address, k);
  }

  lemma UnfundedLaw(db: Db, txid: string, address: string, out: nat, amount: nat, now: int)
    requires forall id :: id in db.tasks ==> db.tasks[id].depositAddress != address || !Open(db.tasks[id].status)
    ensures UpdateSafeboxTaskReceived(db, txid, address, out, amount, now) == db
  {
  }

  // A task is added, waiting, exactly when no open task has its address and its id is new.
  lemma NewTaskLaw(db: Db, t: Task)
    requires forall id :: id in db.tasks ==> id in db.taskIds
    ensures var r := CreateSafeboxTask(db, t);
            if exists id :: id in db.tasks && db.tasks[id].depositAddress == t.depositAddress && Open(db.tasks[id].status)
            then r == Err(BadStatus)
            else if t.taskId in db.tasks then r == Err(Duplicate)
            else r == Ok(db.(taskIds := db.taskIds + [t.taskId], tasks := db.tasks[t.taskId :=
              Task(t.taskId, t.depositAddress, t.timelockAddress, t.deadline, t.amount, "", 0, "", 0, Create, "")]))
  {
    var found := FirstTask(db.tasks, db.taskIds, ProcessingByAddress(t.depositAddress));
    if found.Some? {
      assert Open(db.tasks[found.value].status);
    }
  }

  // Steps on a task by its id, from the statuses that allow them.
  lemma TaskLaw(db: Db, id: nat, txid: string, out: nat)
    requires id in db.tasks
    ensures var t := db.tasks[id];
            && UpdateSafeboxTaskCancelled(db, id) == (if Open(t.status) then db.(tasks := db.tasks[id := t.(status := Closed)]) else db)
            && UpdateSafeboxTaskCompleted(db, id)
               == (if t.status == Processed then Ok(db.(tasks := db.tasks[id := t.(status := Completed)])) else Err(NotFound))
            && UpdateSafeboxTaskReceivedOK(db, id, txid, out)
               == (if !Open(t.status) then Err(NotFound)
                   else if t.status in {Received, Create}
                   then Ok(db.(tasks := db.tasks[id := t.(fundingTxid := txid, fundingOutIndex := out, status := ReceivedOk)]))
                   else Err(BadStatus))
  {
  }

  // Steps on the first open task of a timelock address, and on the first initialised task of a transaction.
  lemma TimelockLaw(db: Db, address: string, txid: string, out: nat, k: nat)
    ensures IsFirst(db, (t: Task) => t.timelockAddress == address && Open(t.status), k) ==>
              var t := db.tasks[db.taskIds[k]];
              UpdateSafeboxTaskInit(db, address, txid, out)
              == if t.status in {ReceivedOk, Received, Create}
                 then Ok(db.(tasks := db.tasks[db.taskIds[k] := t.(timelockTxid := txid, timelockOutIndex := out, status := Init)]))
                 else Err(BadStatus)
    ensures IsFirst(db, (t: Task) => t.timelockTxid == txid && t.status == Init, k) ==>
              RevertSafeboxTask(db, txid)
              == Ok(db.(tasks := db.tasks[db.taskIds[k] := db.tasks[db.taskIds[k]].(status := ReceivedOk)]))
  {
    OpenAt(db, address, k);
    OpenAt(db, txid, k);
  }

  // An acknowledged task takes its timelock transaction; the newest order of that transaction becomes init with its
  // inputs and outputs unless it is final.
  lemma AcknowledgeLaw(db: Db, id: nat, txid: string, out: nat)
    requires id in db.tasks
    ensures var t, r := db.tasks[id], UpdateSafeboxTaskInitOK(db, id, txid, out);
            if !Open(t.status) then r == Err(NotFound)
            else if t.status !in {Init, ReceivedOk, Received, Create} then r == Err(BadStatus)
            else
              && r.Ok? && r.value.utxos == db.utxos && r.value.withdraws == db.withdraws && OthersStay(db, r.value)
              && r.value.tasks == db.tasks[id := t.(timelockTxid := txid, timelockOutIndex := out, status := InitOk)]
              && (HasNone(db, txid) ==> r.value.orders == db.orders && r.value.vins == db.vins && r.value.vouts == db.vouts)
  {
    if HasNone(db, txid) {
      NoNewest(db, txid);
    }
  }

  lemma AcknowledgedOrder(db: Db, id: nat, txid: string, out: nat, k: nat)
    requires id in db.tasks && db.tasks[id].status in {Init, ReceivedOk, Received, Create} && IsNewest(db, txid, k)
    ensures var x, r := db.orderIds[k], UpdateSafeboxTaskInitOK(db, id, txid, out);
            && r.Ok?
            && (if db.orders[x].status in {Confirmed, Processed, Closed}
                then r.value.orders == db.orders && r.value.vins == db.vins && r.value.vouts == db.vouts
                else r.value.orders == db.orders[x := db.orders[x].(status := Init)] && PartsBecome(db, r.value, x, Init))
  {
    NewestIs(db, txid, k);
  }

  // A task is processed from confirmed or acknowledged, together with the orders of its transaction.
  lemma ProcessLaw(db: Db, id: nat)
    requires id in db.tasks
    ensures var t, r := db.tasks[id], UpdateSafeboxTaskProcessed(db, id);
            if !Open(t.status) then r == Err(NotFound)
            else if t.status !in {Confirmed, InitOk} then r == Err(BadStatus)
            else r == FinalizeTxid(db.(tasks := db.tasks[id := t.(status := Processed)]), t.timelockTxid, None)
  {
  }
}
