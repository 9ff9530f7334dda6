// Scanning a block: an output of the wallet reaches the coin table and, when it is a new deposit, the deposit table.
module Scanner {
  import opened Common
  import opened Models
  import opened WalletRows
  import opened OrderSteps
  import opened CoinSteps
  import opened Wallet
  import opened DepositTable
  import Allocation
  import CoinRanks
  import Deposit
  import Keys
  import Spv
  import WalletRuns

  // What the scanner found: an output with the transaction it is in.
  datatype Scanned = Scanned(found: Found, evmAddr: string, rawTx: string)

  function KeyOf(op: OutPoint): Deposit.Key {
    Deposit.Key(op.txid, op.index)
  }

  // The deposit row of an output, still without its block and proof.
  function DepositOf(o: Scanned): Deposit.Row {
    Deposit.Row(0, KeyOf(o.found.utxo.outPoint), o.found.utxo.amount, o.rawTx, o.evmAddr, 1, "", 0, 0, [], [], Deposit.Confirmed)
  }

  // The two tables after an output was scanned.  An output that cannot be proved against its block is skipped.
  function Scan(h: Deposit.Hashing, build: ScriptBuilder, db: Db, s: Deposit.State, o: Scanned, b: Deposit.Block): (Db, Deposit.State) {
    if h.Prove(o.found.utxo.outPoint.txid, b).Err? then (db, s)
    else
      (WalletRuns.After(db, AddUtxo(db, o.found, build)),
       if SavesDeposit(db, o.found) then Deposit.Apply(h, s, Deposit.Scanned(DepositOf(o), b)) else s)
  }

  method ScanOutput(wallet: WalletState, deposits: DepositState, build: ScriptBuilder, o: Scanned, b: Deposit.Block)
    returns (err: Option<DbError>)
    modifies wallet, deposits
    ensures (wallet.db, deposits.View()) == Scan(deposits.hashing, build, old(wallet.db), old(deposits.View()), o, b)
    ensures err.Some? <==> deposits.hashing.Prove(o.found.utxo.outPoint.txid, b).Ok? && AddUtxo(old(wallet.db), o.found, build).Err?
  {
    var h := deposits.hashing;
    var p := Spv.GenerateSPVProof(h.dsha, h.parse, o.found.utxo.outPoint.txid, b.txHashes);
    if p.Err? {
      return None;
    }
    err := wallet.AddUtxo(o.found, build, deposits, Deposit.Proven(DepositOf(o), b, p.value));
  }

  lemma CoinIsAllocated(build: ScriptBuilder, db: Db, f: Found)
    requires Allocation.NoDoubleAllocation(db)
    ensures Allocation.NoDoubleAllocation(WalletRuns.After(db, AddUtxo(db, f, build)))
  {
    CoinRanks.AddUtxoAdvances(db, f, build);
    WalletRuns.AddUtxoFrame(build, db, f);
    var db' := WalletRuns.After(db, AddUtxo(db, f, build));
    Allocation.RowsKeep(db, db');
    Allocation.KeepsInvariant(db, db');
  }

  // Scanning keeps what every state of the two tables keeps: no output promised twice, keyed rows, and a deposit
  // table that agrees with its queue and whose proofs verify.
  lemma ScanKeeps(h: Deposit.Hashing, build: ScriptBuilder, db: Db, s: Deposit.State, o: Scanned, b: Deposit.Block)
    requires Allocation.NoDoubleAllocation(db) && Keys.Keyed(db) && Deposit.Agrees(h, s)
    ensures var (db', s') := Scan(h, build, db, s, o, b);
            Allocation.NoDoubleAllocation(db') && Keys.Keyed(db') && Deposit.Agrees(h, s')
  {
    CoinIsAllocated(build, db, o.found);
    Keys.CoinFoundKeyed(build, db, o.found);
    Deposit.StepAgrees(h, s, Deposit.Scanned(DepositOf(o), b));
  }

  // The deposit row of an output, if there is one.
  predicate HasDeposit(s: Deposit.State, key: Deposit.Key, status: set<Deposit.DepositStatus>) {
    var id := Deposit.Find(s, key);
    id.Some? && s.rows[id.value].status in status
  }

  // A new deposit of an allowed size reaches both tables, one of another size reaches neither: the coin is
  // confirmed, and the deposit row is confirmed unless it was processed already.
  lemma DepositReachesBoth(h: Deposit.Hashing, build: ScriptBuilder, db: Db, s: Deposit.State, o: Scanned, b: Deposit.Block)
    requires Deposit.Agrees(h, s) && h.Prove(o.found.utxo.outPoint.txid, b).Ok?
    requires o.found.isDeposit && o.found.utxo.status == CoinConfirmed
    requires o.found.utxo.outPoint !in db.utxos && o.found.utxo.outPoint !in db.deposits
    ensures var (db', s') := Scan(h, build, db, s, o, b);
            var op := o.found.utxo.outPoint;
            if o.found.minSize <= o.found.noWitnessSize <= o.found.maxSize then
              && op in db'.utxos && db'.utxos[op] == o.found.utxo
              && HasDeposit(s', KeyOf(op), {Deposit.Confirmed, Deposit.Processed})
            else
              db' == db && s' == s
  {
    var f := o.found;
    if f.minSize <= f.noWitnessSize <= f.maxSize {
      var p := h.Prove(f.utxo.outPoint.txid, b).value;
      SavedIsFound(h, s, Deposit.Proven(DepositOf(o), b, p));
    }
  }

  lemma SavedIsFound(h: Deposit.Hashing, s: Deposit.State, row: Deposit.Row)
    requires Deposit.Agrees(h, s)
    ensures HasDeposit(Deposit.SaveConfirm(s, row), row.key, {Deposit.Confirmed, Deposit.Processed})
  {
    var id, s' := Deposit.Find(s, row.key), Deposit.SaveConfirm(s, row);
    var at := if id.Some? then id.value else s.nextId;
    assert at in s'.rows && s'.rows[at].key == row.key && s'.rows[at].status in {Deposit.Confirmed, Deposit.Processed};
    var found := Deposit.Find(s', row.key);
    assert found.Some?;
    assert found.value == at;
  }

  // The deposit row of a new output has its transaction, position and amount, and the place and proof of its block.
  lemma NewDepositRow(h: Deposit.Hashing, build: ScriptBuilder, db: Db, s: Deposit.State, o: Scanned, b: Deposit.Block)
    requires Deposit.Agrees(h, s) && h.Prove(o.found.utxo.outPoint.txid, b).Ok?
    requires o.found.isDeposit && o.found.utxo.status == CoinConfirmed && o.found.minSize <= o.found.noWitnessSize <= o.found.maxSize
    requires o.found.utxo.outPoint !in db.utxos && o.found.utxo.outPoint !in db.deposits
    requires forall id :: id in s.rows ==>
               s.rows[id].key.txHash != o.found.utxo.outPoint.txid || s.rows[id].key.outputIndex != o.found.utxo.outPoint.index
    ensures var s', p, u := Scan(h, build, db, s, o, b).1, h.Prove(o.found.utxo.outPoint.txid, b).value, o.found.utxo;
            s'.rows == s.rows[s.nextId :=
              Deposit.Row(s.nextId, Deposit.Key(u.outPoint.txid, u.outPoint.index), u.amount, o.rawTx, o.evmAddr, 1,
                          b.hash, b.height, p.txIndex, p.merkleRoot, p.proof, Deposit.Confirmed)]
  {
    Deposit.ScannedLaw(h, s, DepositOf(o), b, s.nextId);
  }
}
