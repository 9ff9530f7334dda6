// The safebox task steps of internal/state/deposit.go and safebox.go, as functions on the database.
module TaskSteps {
  import opened Common
  import opened Models
  import opened WalletRows
  import opened OrderSteps

  predicate IsProcessing(db: Db, taskId: nat) {
    taskId in db.tasks && !Finished(db.tasks[taskId].status)
  }

  function SetTask(db: Db, taskId: nat, t: Task): Db {
    db.(tasks := db.tasks[taskId := t])
  }

  function CreateSafeboxTask(db: Db, t: Task): Step {
    if FirstTask(db.tasks, db.taskIds, ProcessingByAddress(t.depositAddress)).Some? then Err(BadStatus)
    else if t.taskId in db.tasks then Err(Duplicate)
    else Ok(db.(taskIds := db.taskIds + [t.taskId], tasks := db.tasks[t.taskId :=
      t.(status := Create, orderId := "", fundingTxid := "", fundingOutIndex := 0,
         timelockTxid := "", timelockOutIndex := 0)]))
  }

  function UpdateSafeboxTaskCancelled(db: Db, taskId: nat): Db {
    if !IsProcessing(db, taskId) then db else SetTask(db, taskId, db.tasks[taskId].(status := Closed))
  }

  function UpdateSafeboxTaskCompleted(db: Db, taskId: nat): Step {
    if taskId !in db.tasks || db.tasks[taskId].status != Processed then Err(NotFound)
    else Ok(SetTask(db, taskId, db.tasks[taskId].(status := Completed)))
  }

  function UpdateSafeboxTaskProcessed(db: Db, taskId: nat): Step {
    if !IsProcessing(db, taskId) then Err(NotFound)
    else
      var t := db.tasks[taskId];
      if t.status != Confirmed && t.status != InitOk then Err(BadStatus)
      else FinalizeTxid(SetTask(db, taskId, t.(status := Processed)), t.timelockTxid, None)
  }

  function UpdateSafeboxTaskInitOK(db: Db, taskId: nat, timelockTxid: string, timelockOutIndex: nat): Step {
    if !IsProcessing(db, taskId) then Err(NotFound)
    else
      var t := db.tasks[taskId];
      if t.status !in {Init, ReceivedOk, Received, Create} then Err(BadStatus)
      else
        var d := SetTask(db, taskId, t.(timelockTxid := timelockTxid, timelockOutIndex := timelockOutIndex, status := InitOk));
        match NewestByTxid(d.orders, d.orderIds, timelockTxid)
        case None => Ok(d)
        case Some(id) =>
          if Final(d.orders[id].status) then Ok(d) else
          Ok(UpdateOtherStatusByOrder(d.(orders := d.orders[id := d.orders[id].(status := Init)]), id, Init, true))
  }

  function UpdateSafeboxTaskInit(db: Db, timelockAddress: string, timelockTxid: string, timelockOutIndex: nat): Step {
    match FirstTask(db.tasks, db.taskIds, ProcessingByTimelockAddress(timelockAddress))
    case None => Err(NotFound)
    case Some(id) =>
      if db.tasks[id].status !in {ReceivedOk, Received, Create} then Err(BadStatus)
      else Ok(SetTask(db, id, db.tasks[id].(timelockTxid := timelockTxid, timelockOutIndex := timelockOutIndex, status := Init)))
  }

  function UpdateSafeboxTaskReceivedOK(db: Db, taskId: nat, fundingTxid: string, txOut: nat): Step {
    if !IsProcessing(db, taskId) then Err(NotFound)
    else if db.tasks[taskId].status !in {Received, Create} then Err(BadStatus)
    else Ok(SetTask(db, taskId, db.tasks[taskId].(fundingTxid := fundingTxid, fundingOutIndex := txOut, status := ReceivedOk)))
  }

  // A deposit for a task: ignored without a waiting task or with another amount; late deposits close it.
  function UpdateSafeboxTaskReceived(db: Db, txid: string, evmAddr: string, txOut: nat, amount: nat, now: int): Db {
    match FirstTask(db.tasks, db.taskIds, ProcessingByAddress(evmAddr))
    case None => db
    case Some(id) =>
      var t := db.tasks[id];
      if t.status != Create then db
      else if now > t.deadline then SetTask(db, id, t.(status := Closed))
      else if amount != t.amount then db
      else SetTask(db, id, t.(status := Received, fundingTxid := txid, fundingOutIndex := txOut))
  }

  function RevertSafeboxTask(db: Db, timelockTxid: string): Step {
    match FirstTask(db.tasks, db.taskIds, InitByTimelockTxid(timelockTxid))
    case None => Err(NotFound)
    case Some(id) => Ok(SetTask(db, id, db.tasks[id].(status := ReceivedOk)))
  }
}
