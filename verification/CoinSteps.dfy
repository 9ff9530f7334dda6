// The steps of internal/state/wallet.go on wallet outputs, as functions on the database.
module CoinSteps {
  import opened Common
  import opened Models
  import opened WalletRows
  import opened OrderSteps

  function SetCoin(db: Db, u: Utxo): Db {
    db.(utxos := db.utxos[u.outPoint := u])
  }

  function UpdateUtxoStatusProcessed(db: Db, op: OutPoint): Step {
    if op !in db.utxos then Err(NotFound)
    else if Allocated(db.utxos[op]) then Err(BadStatus)
    else Ok(db.(utxos := db.utxos[op := db.utxos[op].(status := CoinProcessed)]))
  }

  function UpdateUtxoStatusSpent(db: Db, op: OutPoint, btcBlock: nat): Step {
    if op !in db.utxos then Err(NotFound)
    else Ok(db.(utxos := db.utxos[op := Spend(db.utxos[op], btcBlock)]))
  }

  // Inputs of coins that are not in the table are ignored.
  function UpdateUtxoStatusSpentByVins(db: Db, vins: seq<Vin>, btcBlock: nat): Db {
    db.(utxos := SpendCoins(db.utxos, Prevs(vins), btcBlock))
  }

  // Builds the redeem script of a deposit address; None when the address or key is invalid.
  type ScriptBuilder = string -> Option<seq<byte>>

  // What the scanner knows about a found output.
  datatype Found = Found(utxo: Utxo, isDeposit: bool, noWitnessSize: nat, minSize: nat, maxSize: nat)

  // A known coin keeps its status.
  function Merged(db: Db, u: Utxo): Utxo {
    if u.outPoint in db.utxos then u.(status := db.utxos[u.outPoint].status) else u
  }

  // A confirmed coin with a deposit result is processed at once.
  function AddUtxo(db: Db, f: Found, build: ScriptBuilder): Step {
    var u := Merged(db, f.utxo);
    if u.status != CoinConfirmed then Ok(SetCoin(db, u))
    else if u.outPoint in db.deposits then
      var u' := u.(source := FromDeposit, status := CoinProcessed);
      if |u.subScript| != 0 || u.receiverType != P2WSH then Ok(SetCoin(db, u')) else
      match build(db.deposits[u.outPoint].address)
      case None => Err(BadScript)
      case Some(script) => Ok(SetCoin(db, u'.(subScript := script)))
    else if f.isDeposit && (f.noWitnessSize < f.minSize || f.noWitnessSize > f.maxSize) then Ok(db)
    else Ok(SetCoin(db, u))
  }

  // Whether AddUtxo also hands the output to the deposit table.
  predicate SavesDeposit(db: Db, f: Found) {
    var u := Merged(db, f.utxo);
    u.status == CoinConfirmed && u.outPoint !in db.deposits && f.isDeposit
    && f.minSize <= f.noWitnessSize <= f.maxSize
  }

  function UpdateUtxoSubScript(db: Db, op: OutPoint, evmAddr: string, build: ScriptBuilder): Step {
    match build(evmAddr)
    case None => Err(BadScript)
    case Some(script) =>
      if op !in db.utxos then Err(NotFound) else
      Ok(db.(utxos := db.utxos[op := db.utxos[op].(subScript := script)],
             deposits := if op in db.deposits then db.deposits[op := db.deposits[op].(needFetchSubScript := false)]
                         else db.deposits))
  }

  function NeedsFetch(db: Db, op: OutPoint): bool {
    op !in db.utxos || (db.utxos[op].receiverType == P2WSH && |db.utxos[op].subScript| == 0)
  }

  function AddDepositResult(db: Db, op: OutPoint, address: string, amount: nat, blockHash: string): Db {
    var need := NeedsFetch(db, op);
    var d := if op in db.utxos && !Allocated(db.utxos[op])
             then db.(utxos := db.utxos[op := db.utxos[op].(status := CoinProcessed)]) else db;
    d.(deposits := d.deposits[op := if op in d.deposits then d.deposits[op].(needFetchSubScript := need)
                                    else DepositResult(address, amount, blockHash, need)])
  }
}
