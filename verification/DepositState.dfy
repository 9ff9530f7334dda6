// The deposit state as an object: the table and the queue change together, step by step.
module DepositTable {
  import opened Common
  import opened Spv
  import opened Deposit

  lemma {:induction false} RemovePast(q: seq<Row>, key: Key, i: nat)
    requires i <= |q| && forall j :: 0 <= j < i ==> q[j].key != key
    ensures RemoveFirst(q, key) == q[..i] + RemoveFirst(q[i..], key)
    decreases i
  {
    if i > 0 {
      RemovePast(q[1..], key, i - 1);
      assert q[1..][..i - 1] == q[1..i] && q[1..][i - 1..] == q[i..];
      assert [q[0]] + q[1..i] == q[..i];
    }
  }

  // Takes the first entry for an output off a queue.
  method Dequeue(queue: seq<Row>, key: Key) returns (q: seq<Row>)
    ensures q == RemoveFirst(queue, key)
  {
    q := queue;
    for i := 0 to |queue|
      invariant q == queue
      invariant forall j :: 0 <= j < i ==> queue[j].key != key
    {
      if queue[i].key == key {
        RemovePast(queue, key, i);
        q := if i == |queue| - 1 then queue[..i] else queue[..i] + queue[i + 1..];
        return;
      }
    }
    RemovePast(queue, key, |queue|);
  }

  class DepositState {
    const hashing: Hashing
    var rows: map<nat, Row>
    var nextId: nat
    var unconfirmQueue: seq<Row>
    var sigQueue: seq<Row>
    var latest: Option<Row>

    ghost function View(): State
      reads this
    {
      State(rows, nextId, unconfirmQueue, sigQueue, latest)
    }

    // Loads the queues from the table.
    constructor (hashing: Hashing, rows: map<nat, Row>, nextId: nat)
      ensures View() == Load(rows, nextId) && this.hashing == hashing
    {
      var unconfirmed, signing, last := [], [], None;
      for id := 0 to nextId
        invariant unconfirmed == Select(rows, id, {Unconfirmed, Confirmed})
        invariant signing == Select(rows, id, {Signing, Pending})
        invariant last == LastProcessed(rows, id)
      {
        if id in rows {
          match rows[id].status {
            case Unconfirmed | Confirmed => unconfirmed := unconfirmed + [rows[id]];
            case Signing | Pending => signing := signing + [rows[id]];
            case Processed => last := Some(rows[id]);
          }
        }
      }
      this.hashing, this.rows, this.nextId := hashing, rows, nextId;
      unconfirmQueue, sigQueue, latest := unconfirmed, signing, last;
    }

    // Saves a row that is not in the table yet.
    method SaveNew(row: Row) returns (saved: Row)
      modifies `rows, `nextId
      ensures saved == row.(id := old(nextId))
      ensures rows == old(rows)[old(nextId) := saved] && nextId == old(nextId) + 1
    {
      saved := row.(id := nextId);
      rows, nextId := rows[nextId := saved], nextId + 1;
    }

    method AddUnconfirmDeposit(row: Row)
      modifies this
      ensures View() == AddUnconfirm(old(View()), row)
    {
      if FindFrom(rows, 0, nextId, row.key).Some? {
        return;
      }
      var deposit := row.(status := Unconfirmed, blockHash := "", blockHeight := 0, txIndex := 0, merkleRoot := [], proof := []);
      deposit := SaveNew(deposit);
      unconfirmQueue := unconfirmQueue + [deposit];
    }

    method SaveConfirmDeposit(found: Row)
      modifies this
      ensures View() == SaveConfirm(old(View()), found)
    {
      var id := FindFrom(rows, 0, nextId, found.key);
      if id.None? {
        var _ := SaveNew(found.(status := Confirmed));
      } else {
        var deposit := rows[id.value];
        if deposit.status != Processed {
          deposit := deposit.(status := Confirmed, amount := found.amount, blockHash := found.blockHash,
                              blockHeight := found.blockHeight, txIndex := found.txIndex,
                              merkleRoot := found.merkleRoot, proof := found.proof);
        }
        rows := rows[id.value := deposit];
      }
      unconfirmQueue := Dequeue(unconfirmQueue, found.key);
    }

    method UpdateProcessedDeposit(key: Key, evmAddr: string)
      modifies this
      ensures View() == UpdateProcessed(old(View()), key, evmAddr)
    {
      var id := FindFrom(rows, 0, nextId, key);
      var deposit;
      if id.None? {
        deposit := SaveNew(Row(0, key, 0, "", evmAddr, 0, "", 0, 0, [], [], Processed));
      } else {
        deposit := rows[id.value].(status := Processed);
        rows := rows[id.value := deposit];
      }
      latest := Some(deposit);
      unconfirmQueue := Dequeue(unconfirmQueue, key);
      sigQueue := Dequeue(sigQueue, key);
    }

    // On an error the entries before the failing one stay confirmed.
    method UpdateConfirmedDepositsByBtcHeight(block: Block) returns (err: Option<SpvError>)
      modifies this
      ensures (View(), err) == ConfirmFrom(hashing, old(View()), block, 0)
    {
      ghost var n := |unconfirmQueue|;
      for k := 0 to |unconfirmQueue|
        invariant |unconfirmQueue| == n
        invariant ConfirmFrom(hashing, View(), block, k) == ConfirmFrom(hashing, old(View()), block, 0)
      {
        var deposit := unconfirmQueue[k];
        if deposit.key.txHash in block.txHashes {
          var p := GenerateSPVProof(hashing.dsha, hashing.parse, deposit.key.txHash, block.txHashes);
          if p.Err? {
            return Some(p.error);
          }
          if deposit.status == Unconfirmed {
            deposit := deposit.(status := Confirmed, blockHash := block.hash, blockHeight := block.height,
                                txIndex := p.value.txIndex, merkleRoot := p.value.merkleRoot, proof := p.value.proof);
            unconfirmQueue := unconfirmQueue[k := deposit];
            rows := rows[deposit.id := deposit];
          }
        }
      }
      err := None;
    }
  }
}
