// The deposit table of internal/state/deposit.go and the in-memory queue that must agree with it, as
// functions on their common state.
module Deposit {
  import opened Common
  import opened Spv

  // Signing and Pending are stored statuses that no step writes.
  datatype DepositStatus = Unconfirmed | Confirmed | Signing | Pending | Processed

  datatype Key = Key(txHash: string, outputIndex: int)

  datatype Row = Row(
    id: nat, key: Key, amount: int, rawTx: string, evmAddr: string, signVersion: nat,
    blockHash: string, blockHeight: nat, txIndex: int, merkleRoot: seq<byte>, proof: seq<byte>, status: DepositStatus)

  // Row ids are handed out in increasing order, and queries return the row with the smallest id.
  datatype State = State(
    rows: map<nat, Row>, nextId: nat, queue: seq<Row>, sigQueue: seq<Row>, latest: Option<Row>)

  // ---------- Queries ----------

  function FindFrom(rows: map<nat, Row>, id: nat, nextId: nat, key: Key): (r: Option<nat>)
    ensures r.Some? ==> id <= r.value < nextId && r.value in rows && rows[r.value].key == key
    ensures forall k :: id <= k < (if r.Some? then r.value else nextId) && k in rows ==> rows[k].key != key
    decreases nextId - id
  {
    if id >= nextId then None
    else if id in rows && rows[id].key == key then Some(id)
    else FindFrom(rows, id + 1, nextId, key)
  }

  function Find(s: State, key: Key): Option<nat> {
    FindFrom(s.rows, 0, s.nextId, key)
  }

  // A queue without its first entry for an output.
  function RemoveFirst(q: seq<Row>, key: Key): (r: seq<Row>)
    ensures forall x :: x in r ==> x in q
  {
    if q == [] then [] else if q[0].key == key then q[1..] else [q[0]] + RemoveFirst(q[1..], key)
  }

  // ---------- Steps ----------

  function Insert(s: State, row: Row): State {
    s.(rows := s.rows[s.nextId := row.(id := s.nextId)], nextId := s.nextId + 1)
  }

  function AddUnconfirm(s: State, row: Row): State {
    if Find(s, row.key).Some? then s else
    var added := row.(id := s.nextId, status := Unconfirmed, blockHash := "", blockHeight := 0, txIndex := 0,
                      merkleRoot := [], proof := []);
    Insert(s, added).(queue := s.queue + [added])
  }

  // A confirmed output: a known row keeps its raw transaction and addresses, a processed row keeps everything.
  function Merged(row: Row, found: Row): Row {
    if row.status == Processed then row
    else row.(status := Confirmed, amount := found.amount, blockHash := found.blockHash, blockHeight := found.blockHeight,
              txIndex := found.txIndex, merkleRoot := found.merkleRoot, proof := found.proof)
  }

  function SaveConfirm(s: State, found: Row): State {
    var saved := match Find(s, found.key)
      case None => Insert(s, found.(status := Confirmed))
      case Some(id) => s.(rows := s.rows[id := Merged(s.rows[id], found)]);
    saved.(queue := RemoveFirst(s.queue, found.key))
  }

  function UpdateProcessed(s: State, key: Key, evmAddr: string): State {
    var saved := match Find(s, key)
      case None => Insert(s, Row(0, key, 0, "", evmAddr, 0, "", 0, 0, [], [], Processed))
      case Some(id) => s.(rows := s.rows[id := s.rows[id].(status := Processed)]);
    var id := match Find(s, key) case None => s.nextId case Some(id) => id;
    saved.(latest := Some(saved.rows[id]), queue := RemoveFirst(s.queue, key), sigQueue := RemoveFirst(s.sigQueue, key))
  }

  datatype Block = Block(height: nat, hash: string, txHashes: seq<string>)

  // The hash functions that proofs are made with.
  datatype Hashing = Hashing(dsha: Sha, parse: string -> Option<Digest>) {
    function Prove(txHash: string, b: Block): Result<SpvProof, SpvError> {
      SpvOf(dsha, parse, txHash, b.txHashes)
    }

    ghost predicate Verifies(row: Row) {
      Proves(dsha, parse, row.key.txHash, row.merkleRoot, row.proof, row.txIndex)
    }
  }

  function Proven(row: Row, b: Block, p: SpvProof): Row {
    row.(status := Confirmed, blockHash := b.hash, blockHeight := b.height, txIndex := p.txIndex,
         merkleRoot := p.merkleRoot, proof := p.proof)
  }

  // Saves a changed queue entry.
  function SaveQueued(s: State, k: nat, row: Row): State
    requires k < |s.queue|
  {
    s.(queue := s.queue[k := row], rows := s.rows[row.id := row])
  }

  // The queue entries from position k on, in order; the first failing proof ends the step.
  function ConfirmFrom(h: Hashing, s: State, b: Block, k: nat): (State, Option<SpvError>)
    requires k <= |s.queue|
    decreases |s.queue| - k
  {
    if k == |s.queue| then (s, None) else
    var row := s.queue[k];
    if row.key.txHash !in b.txHashes then ConfirmFrom(h, s, b, k + 1) else
    match h.Prove(row.key.txHash, b)
    case Err(e) => (s, Some(e))
    case Ok(p) =>
      if row.status != Unconfirmed then ConfirmFrom(h, s, b, k + 1) else
      ConfirmFrom(h, SaveQueued(s, k, Proven(row, b, p)), b, k + 1)
  }

  function ConfirmBlock(h: Hashing, s: State, b: Block): State {
    ConfirmFrom(h, s, b, 0).0
  }

  // The rows with a status among those given, by id.
  function Select(rows: map<nat, Row>, nextId: nat, statuses: set<DepositStatus>): seq<Row> {
    if nextId == 0 then []
    else
      var front := Select(rows, nextId - 1, statuses);
      if nextId - 1 in rows && rows[nextId - 1].status in statuses then front + [rows[nextId - 1]] else front
  }

  function LastProcessed(rows: map<nat, Row>, nextId: nat): Option<Row> {
    if nextId == 0 then None
    else if nextId - 1 in rows && rows[nextId - 1].status == Processed then Some(rows[nextId - 1])
    else LastProcessed(rows, nextId - 1)
  }

  // The state after a restart of the relayer.
  function Load(rows: map<nat, Row>, nextId: nat): State {
    State(rows, nextId, Select(rows, nextId, {Unconfirmed, Confirmed}), Select(rows, nextId, {Signing, Pending}),
          LastProcessed(rows, nextId))
  }

  // ---------- Runs ----------

  // The scanner proves an output against its block before it is saved, and skips it when that fails.
  datatype Event =
    | Arrived(row: Row)
    | Scanned(row: Row, block: Block)
    | Committed(key: Key, evmAddr: string)
    | BlockSeen(block: Block)
    | Restarted

  function Apply(h: Hashing, s: State, e: Event): State {
    match e
    case Arrived(row) => AddUnconfirm(s, row)
    case Scanned(row, b) =>
      (match h.Prove(row.key.txHash, b)
       case Err(_) => s
       case Ok(p) => SaveConfirm(s, Proven(row, b, p)))
    case Committed(key, addr) => UpdateProcessed(s, key, addr)
    case BlockSeen(b) => ConfirmBlock(h, s, b)
    case Restarted => Load(s.rows, s.nextId)
  }

  function Run(h: Hashing, s: State, es: seq<Event>): State
    decreases |es|
  {
    if es == [] then s else Run(h, Apply(h, s, es[0]), es[1..])
  }

  const EMPTY := State(map[], 0, [], [], None)

  // ---------- Agreement of the queue with the table ----------

  ghost predicate TableOk(h: Hashing, rows: map<nat, Row>, nextId: nat) {
    && (forall id :: id in rows ==> id < nextId && rows[id].id == id && rows[id].status !in {Signing, Pending})
    && (forall a, b :: a in rows && b in rows && rows[a].key == rows[b].key ==> a == b)
    && (forall id :: id in rows && rows[id].status == Confirmed ==> h.Verifies(rows[id]))
  }

  ghost predicate DistinctIds(q: seq<Row>) {
    forall i, j :: 0 <= i < j < |q| ==> q[i].id != q[j].id
  }

  // Entries are copies of different unprocessed rows, and no unconfirmed row is missing.
  ghost predicate QueueOk(rows: map<nat, Row>, queue: seq<Row>) {
    && (forall i :: 0 <= i < |queue| ==>
          queue[i].id in rows && rows[queue[i].id] == queue[i] && queue[i].status in {Unconfirmed, Confirmed})
    && DistinctIds(queue)
    && (forall id :: id in rows && rows[id].status == Unconfirmed ==> rows[id] in queue)
  }

  ghost predicate Agrees(h: Hashing, s: State) {
    TableOk(h, s.rows, s.nextId) && QueueOk(s.rows, s.queue) && s.sigQueue == []
  }

  // Only the entry of the output is missing after a removal.
  lemma {:induction false} RemoveFirstKeeps(rows: map<nat, Row>, q: seq<Row>, key: Key)
    requires forall i :: 0 <= i < |q| ==> q[i].id in rows && rows[q[i].id] == q[i]
    requires DistinctIds(q)
    requires forall a, b :: a in rows && b in rows && rows[a].key == rows[b].key ==> a == b
    ensures forall x :: x in RemoveFirst(q, key) <==> x in q && x.key != key
    decreases |q|
  {
    if q != [] {
      var tail := q[1..];
      assert q == [q[0]] + tail;
      RemoveFirstKeeps(rows, tail, key);
      forall x | x in tail ensures x.id != q[0].id && x.key != q[0].key {
        var i :| 0 <= i < |tail| && tail[i] == x;
        assert q[i + 1] == x;
      }
    }
  }

  lemma {:induction false} RemoveFirstDistinct(q: seq<Row>, key: Key)
    requires DistinctIds(q)
    ensures DistinctIds(RemoveFirst(q, key))
    decreases |q|
  {
    if q != [] && q[0].key != key {
      RemoveFirstDistinct(q[1..], key);
      var r := RemoveFirst(q[1..], key);
      forall x | x in r ensures x.id != q[0].id {
        assert x in q[1..];
      }
      assert forall j :: 0 <= j < |r| ==> r[j] in r;
    }
  }

  // A step that changes or adds the row of one output and takes the output off the queue.
  lemma DequeueAgrees(h: Hashing, s: State, s': State, key: Key, id: nat)
    requires Agrees(h, s)
    requires s'.queue == RemoveFirst(s.queue, key) && s'.sigQueue == [] && s'.nextId >= s.nextId && id < s'.nextId
    requires id in s'.rows && s'.rows == s.rows[id := s'.rows[id]]
    requires s'.rows[id].id == id && s'.rows[id].key == key && s'.rows[id].status in {Confirmed, Processed}
    requires s'.rows[id].status == Confirmed ==> h.Verifies(s'.rows[id])
    requires id in s.rows ==> s.rows[id].key == key
    requires id !in s.rows ==> forall a :: a in s.rows ==> s.rows[a].key != key
    ensures Agrees(h, s')
  {
    TableUpdate(h, s, s', key, id);
    QueueWithout(s, s', key, id);
  }

  lemma QueueWithout(s: State, s': State, key: Key, id: nat)
    requires QueueOk(s.rows, s.queue) && s'.queue == RemoveFirst(s.queue, key)
    requires forall a, b :: a in s.rows && b in s.rows && s.rows[a].key == s.rows[b].key ==> a == b
    requires id in s'.rows && s'.rows == s.rows[id := s'.rows[id]] && s'.rows[id].status in {Confirmed, Processed}
    requires id in s.rows ==> s.rows[id].key == key
    requires id !in s.rows ==> forall a :: a in s.rows ==> s.rows[a].key != key
    ensures QueueOk(s'.rows, s'.queue)
  {
    RemoveFirstKeeps(s.rows, s.queue, key);
    RemoveFirstDistinct(s.queue, key);
    forall i | 0 <= i < |s'.queue|
      ensures s'.queue[i].id in s'.rows && s'.rows[s'.queue[i].id] == s'.queue[i]
      ensures s'.queue[i].status in {Unconfirmed, Confirmed}
    {
      assert s'.queue[i] in s.queue && s'.queue[i].key != key;
    }
  }

  lemma TableUpdate(h: Hashing, s: State, s': State, key: Key, id: nat)
    requires TableOk(h, s.rows, s.nextId) && s'.nextId >= s.nextId && id < s'.nextId
    requires id in s'.rows && s'.rows == s.rows[id := s'.rows[id]]
    requires s'.rows[id].id == id && s'.rows[id].key == key && s'.rows[id].status !in {Signing, Pending}
    requires s'.rows[id].status == Confirmed ==> h.Verifies(s'.rows[id])
    requires id in s.rows ==> s.rows[id].key == key
    requires id !in s.rows ==> forall a :: a in s.rows ==> s.rows[a].key != key
    ensures TableOk(h, s'.rows, s'.nextId)
  {
  }

  lemma FindIsTheRow(h: Hashing, s: State, key: Key)
    requires Agrees(h, s)
    ensures Find(s, key).None? ==> s.nextId !in s.rows && forall a :: a in s.rows ==> s.rows[a].key != key
  {
  }

  lemma AddUnconfirmAgrees(h: Hashing, s: State, row: Row)
    requires Agrees(h, s)
    ensures Agrees(h, AddUnconfirm(s, row))
  {
    FindIsTheRow(h, s, row.key);
    if Find(s, row.key).None? {
      var s' := AddUnconfirm(s, row);
      TableUpdate(h, s, s', row.key, s.nextId);
      assert s'.queue[|s.queue|] == s'.rows[s.nextId];
    }
  }

  lemma SaveConfirmAgrees(h: Hashing, s: State, found: Row)
    requires Agrees(h, s) && h.Verifies(found)
    ensures Agrees(h, SaveConfirm(s, found))
  {
    FindIsTheRow(h, s, found.key);
    var id := if Find(s, found.key).Some? then Find(s, found.key).value else s.nextId;
    DequeueAgrees(h, s, SaveConfirm(s, found), found.key, id);
  }

  lemma UpdateProcessedAgrees(h: Hashing, s: State, key: Key, evmAddr: string)
    requires Agrees(h, s)
    ensures Agrees(h, UpdateProcessed(s, key, evmAddr))
  {
    FindIsTheRow(h, s, key);
    var id := if Find(s, key).Some? then Find(s, key).value else s.nextId;
    DequeueAgrees(h, s, UpdateProcessed(s, key, evmAddr), key, id);
  }

  lemma {:induction false} SelectDistinct(rows: map<nat, Row>, nextId: nat, statuses: set<DepositStatus>)
    requires forall id :: id in rows ==> rows[id].id == id
    ensures DistinctIds(Select(rows, nextId, statuses))
    decreases nextId
  {
    if nextId > 0 {
      SelectDistinct(rows, nextId - 1, statuses);
      if nextId - 1 in rows && rows[nextId - 1].status in statuses {
        SelectMembers(rows, nextId - 1, statuses);
        var front := Select(rows, nextId - 1, statuses);
        assert RowsBelow(rows, nextId - 1, statuses, front);
        DistinctSnoc(front, rows[nextId - 1]);
      }
    }
  }

  // Rows of the table below an id bound, with a wanted status.
  ghost predicate RowsBelow(rows: map<nat, Row>, nextId: nat, statuses: set<DepositStatus>, r: seq<Row>) {
    forall i :: 0 <= i < |r| ==>
      r[i].id < nextId && r[i].id in rows && rows[r[i].id] == r[i] && r[i].status in statuses
  }

  lemma {:induction false} SelectMembers(rows: map<nat, Row>, nextId: nat, statuses: set<DepositStatus>)
    requires forall id :: id in rows ==> rows[id].id == id
    ensures RowsBelow(rows, nextId, statuses, Select(rows, nextId, statuses))
    decreases nextId
  {
    if nextId > 0 {
      SelectMembers(rows, nextId - 1, statuses);
      RowsBelowNext(rows, nextId - 1, statuses, Select(rows, nextId - 1, statuses));
    }
  }

  lemma RowsBelowNext(rows: map<nat, Row>, n: nat, statuses: set<DepositStatus>, front: seq<Row>)
    requires RowsBelow(rows, n, statuses, front)
    ensures RowsBelow(rows, n + 1, statuses, front)
    ensures n in rows && rows[n].id == n && rows[n].status in statuses ==> RowsBelow(rows, n + 1, statuses, front + [rows[n]])
  {
  }

  lemma {:induction false} SelectComplete(rows: map<nat, Row>, nextId: nat, statuses: set<DepositStatus>, id: nat)
    requires id < nextId && id in rows && rows[id].status in statuses
    ensures rows[id] in Select(rows, nextId, statuses)
    decreases nextId
  {
    if id < nextId - 1 {
      SelectComplete(rows, nextId - 1, statuses, id);
    }
  }

  lemma DistinctSnoc(front: seq<Row>, row: Row)
    requires DistinctIds(front) && forall i :: 0 <= i < |front| ==> front[i].id < row.id
    ensures DistinctIds(front + [row])
  {
  }

  lemma {:induction false} SelectNone(rows: map<nat, Row>, nextId: nat, statuses: set<DepositStatus>)
    requires forall id :: id in rows ==> rows[id].status !in statuses
    ensures Select(rows, nextId, statuses) == []
    decreases nextId
  {
    if nextId > 0 {
      SelectNone(rows, nextId - 1, statuses);
    }
  }

  lemma LoadAgrees(h: Hashing, s: State)
    requires Agrees(h, s)
    ensures Agrees(h, Load(s.rows, s.nextId))
  {
    var open := {Unconfirmed, Confirmed};
    SelectMembers(s.rows, s.nextId, open);
    SelectDistinct(s.rows, s.nextId, open);
    SelectNone(s.rows, s.nextId, {Signing, Pending});
    forall id | id in s.rows && s.rows[id].status == Unconfirmed ensures s.rows[id] in Select(s.rows, s.nextId, open) {
      SelectComplete(s.rows, s.nextId, open, id);
    }
  }

  // ---------- Confirming a block ----------

  lemma ConfirmOneAgrees(h: Hashing, s: State, b: Block, k: nat)
    requires Agrees(h, s) && k < |s.queue|
    requires h.Prove(s.queue[k].key.txHash, b).Ok?
    ensures Agrees(h, SaveQueued(s, k, Proven(s.queue[k], b, h.Prove(s.queue[k].key.txHash, b).value)))
  {
    var row := s.queue[k];
    GeneratedProofVerifies(h.dsha, h.parse, row.key.txHash, b.txHashes);
    var row' := Proven(row, b, h.Prove(row.key.txHash, b).value);
    var s' := SaveQueued(s, k, row');
    TableUpdate(h, s, s', row.key, row.id);
    QueueUpdate(s.rows, s.queue, k, row');
  }

  lemma QueueUpdate(rows: map<nat, Row>, queue: seq<Row>, k: nat, row': Row)
    requires forall id :: id in rows ==> rows[id].id == id
    requires QueueOk(rows, queue) && k < |queue| && row'.id == queue[k].id && row'.status == Confirmed
    ensures QueueOk(rows[row'.id := row'], queue[k := row'])
  {
    var rows', queue' := rows[row'.id := row'], queue[k := row'];
    forall id | id in rows' && rows'[id].status == Unconfirmed ensures rows'[id] in queue' {
      var i :| 0 <= i < |queue| && queue[i] == rows[id];
      assert queue'[i] == queue[i];
    }
  }

  // What a block makes of a row.
  function AfterBlock(h: Hashing, row: Row, b: Block): Row {
    var p := h.Prove(row.key.txHash, b);
    if row.status == Unconfirmed && p.Ok? then Proven(row, b, p.value) else row
  }

  lemma {:induction false} ConfirmFromAgrees(h: Hashing, s: State, b: Block, k: nat)
    requires Agrees(h, s) && k <= |s.queue|
    ensures Agrees(h, ConfirmFrom(h, s, b, k).0)
    decreases |s.queue| - k
  {
    if k < |s.queue| {
      var row := s.queue[k];
      var p := h.Prove(row.key.txHash, b);
      if row.key.txHash in b.txHashes && p.Ok? && row.status == Unconfirmed {
        ConfirmOneAgrees(h, s, b, k);
        ConfirmFromAgrees(h, SaveQueued(s, k, Proven(row, b, p.value)), b, k + 1);
      } else if row.key.txHash !in b.txHashes || p.Ok? {
        ConfirmFromAgrees(h, s, b, k + 1);
      }
    }
  }

  // The table and the error after a block whose hashes all parse.
  ghost predicate BlockDone(h: Hashing, s: State, b: Block, r: (State, Option<SpvError>)) {
    && r.1 == None && r.0.rows.Keys == s.rows.Keys
    && forall id :: id in s.rows ==> r.0.rows[id] == AfterBlock(h, s.rows[id], b)
  }

  lemma ConfirmOneRows(h: Hashing, s: State, b: Block, k: nat, r: (State, Option<SpvError>))
    requires Agrees(h, s) && k < |s.queue| && s.queue[k].status == Unconfirmed
    requires h.Prove(s.queue[k].key.txHash, b).Ok?
    requires BlockDone(h, SaveQueued(s, k, Proven(s.queue[k], b, h.Prove(s.queue[k].key.txHash, b).value)), b, r)
    ensures BlockDone(h, s, b, r)
  {
  }

  lemma AllVisited(h: Hashing, s: State, b: Block)
    requires Agrees(h, s) && forall i :: 0 <= i < |s.queue| ==> AfterBlock(h, s.queue[i], b) == s.queue[i]
    ensures BlockDone(h, s, b, (s, None))
  {
    forall id | id in s.rows ensures AfterBlock(h, s.rows[id], b) == s.rows[id] {
      if s.rows[id].status == Unconfirmed {
        assert s.rows[id] in s.queue;
      }
    }
  }

  // The entries before position k are as the block leaves them.
  ghost predicate Visited(h: Hashing, s: State, b: Block, k: nat) {
    k <= |s.queue| && forall i :: 0 <= i < k ==> AfterBlock(h, s.queue[i], b) == s.queue[i]
  }

  predicate Waiting(row: Row, b: Block) {
    row.key.txHash in b.txHashes && row.status == Unconfirmed
  }

  lemma SkipQueued(h: Hashing, s: State, b: Block, k: nat)
    requires k < |s.queue| && !Waiting(s.queue[k], b) && Digests(h.parse, b.txHashes).Ok? && Visited(h, s, b, k)
    ensures ConfirmFrom(h, s, b, k) == ConfirmFrom(h, s, b, k + 1) && Visited(h, s, b, k + 1)
  {
  }

  lemma ConfirmQueued(h: Hashing, s: State, b: Block, k: nat)
    requires k < |s.queue| && Waiting(s.queue[k], b) && Digests(h.parse, b.txHashes).Ok? && Visited(h, s, b, k)
    ensures h.Prove(s.queue[k].key.txHash, b).Ok?
    ensures var s' := SaveQueued(s, k, Proven(s.queue[k], b, h.Prove(s.queue[k].key.txHash, b).value));
            ConfirmFrom(h, s, b, k) == ConfirmFrom(h, s', b, k + 1) && Visited(h, s', b, k + 1)
  {
  }

  // When all hashes of the block parse, every row becomes what the block makes of it.
  lemma {:induction false} ConfirmFromRows(h: Hashing, s: State, b: Block, k: nat)
    requires Agrees(h, s) && Digests(h.parse, b.txHashes).Ok? && Visited(h, s, b, k)
    ensures BlockDone(h, s, b, ConfirmFrom(h, s, b, k))
    decreases |s.queue| - k
  {
    if k == |s.queue| {
      AllVisited(h, s, b);
    } else if Waiting(s.queue[k], b) {
      ConfirmQueued(h, s, b, k);
      ConfirmOneAgrees(h, s, b, k);
      var s' := SaveQueued(s, k, Proven(s.queue[k], b, h.Prove(s.queue[k].key.txHash, b).value));
      ConfirmFromRows(h, s', b, k + 1);
      ConfirmOneRows(h, s, b, k, ConfirmFrom(h, s', b, k + 1));
    } else {
      SkipQueued(h, s, b, k);
      ConfirmFromRows(h, s, b, k + 1);
    }
  }

  // A block with a malformed hash changes nothing.
  lemma {:induction false} MalformedBlock(h: Hashing, s: State, b: Block, k: nat)
    requires k <= |s.queue| && Digests(h.parse, b.txHashes).Err?
    ensures ConfirmFrom(h, s, b, k).0 == s
    decreases |s.queue| - k
  {
    if k < |s.queue| && s.queue[k].key.txHash !in b.txHashes {
      MalformedBlock(h, s, b, k + 1);
    }
  }

  // A block confirms, with a proof, exactly the unconfirmed deposits whose transaction it contains.
  lemma BlockConfirms(h: Hashing, s: State, b: Block, id: nat)
    requires Agrees(h, s) && id in s.rows
    ensures id in ConfirmBlock(h, s, b).rows && ConfirmBlock(h, s, b).rows[id] == AfterBlock(h, s.rows[id], b)
  {
    if Digests(h.parse, b.txHashes).Ok? {
      ConfirmFromRows(h, s, b, 0);
    } else {
      MalformedBlock(h, s, b, 0);
    }
  }

  // ---------- All runs ----------

  lemma StepAgrees(h: Hashing, s: State, e: Event)
    requires Agrees(h, s)
    ensures Agrees(h, Apply(h, s, e))
  {
    match e {
      case Arrived(row) => AddUnconfirmAgrees(h, s, row);
      case Scanned(row, b) =>
        var p := h.Prove(row.key.txHash, b);
        if p.Ok? {
          GeneratedProofVerifies(h.dsha, h.parse, row.key.txHash, b.txHashes);
          SaveConfirmAgrees(h, s, Proven(row, b, p.value));
        }
      case Committed(key, addr) => UpdateProcessedAgrees(h, s, key, addr);
      case BlockSeen(b) => ConfirmFromAgrees(h, s, b, 0);
      case Restarted => LoadAgrees(h, s);
    }
  }

  lemma {:induction false} RunAgrees(h: Hashing, s: State, es: seq<Event>)
    requires Agrees(h, s)
    ensures Agrees(h, Run(h, s, es))
    decreases |es|
  {
    if es != [] {
      StepAgrees(h, s, es[0]);
      RunAgrees(h, Apply(h, s, es[0]), es[1..]);
    }
  }

  // In every reachable state the table has unique outputs and verified confirmations, and the queue agrees.
  lemma ReachableAgrees(h: Hashing, es: seq<Event>)
    ensures Agrees(h, Run(h, EMPTY, es))
  {
    RunAgrees(h, EMPTY, es);
  }

  function Rank(s: DepositStatus): nat {
    match s
    case Unconfirmed => 0
    case Confirmed => 1
    case Signing => 2
    case Pending => 3
    case Processed => 4
  }

  ghost predicate RowAdvances(before: Row, after: Row) {
    && after.key == before.key && Rank(after.status) >= Rank(before.status)
    && (before.status == Processed ==> after == before)
  }

  lemma SaveConfirmAdvances(h: Hashing, s: State, found: Row, id: nat)
    requires Agrees(h, s) && id in s.rows
    ensures id in SaveConfirm(s, found).rows && RowAdvances(s.rows[id], SaveConfirm(s, found).rows[id])
  {
  }

  lemma UpdateProcessedAdvances(h: Hashing, s: State, key: Key, evmAddr: string, id: nat)
    requires Agrees(h, s) && id in s.rows
    ensures id in UpdateProcessed(s, key, evmAddr).rows
    ensures RowAdvances(s.rows[id], UpdateProcessed(s, key, evmAddr).rows[id])
  {
  }

  // Rows never vanish, change their output or fall back, and a processed row never changes at all.
  lemma StepAdvances(h: Hashing, s: State, e: Event, id: nat)
    requires Agrees(h, s) && id in s.rows
    ensures id in Apply(h, s, e).rows && RowAdvances(s.rows[id], Apply(h, s, e).rows[id])
  {
    match e {
      case Arrived(row) =>
        assert id != s.nextId;
      case Scanned(row, b) =>
        var p := h.Prove(row.key.txHash, b);
        if p.Ok? {
          SaveConfirmAdvances(h, s, Proven(row, b, p.value), id);
        }
      case Committed(key, addr) => UpdateProcessedAdvances(h, s, key, addr, id);
      case BlockSeen(b) => BlockConfirms(h, s, b, id);
      case Restarted =>
    }
  }

  lemma {:induction false} ProcessedForever(h: Hashing, s: State, es: seq<Event>, id: nat)
    requires Agrees(h, s) && id in s.rows && s.rows[id].status == Processed
    ensures id in Run(h, s, es).rows && Run(h, s, es).rows[id] == s.rows[id]
    decreases |es|
  {
    if es != [] {
      StepAdvances(h, s, es[0], id);
      StepAgrees(h, s, es[0]);
      ProcessedForever(h, Apply(h, s, es[0]), es[1..], id);
    }
  }

  // Committing a deposit twice has the effect of committing it once.
  lemma CommitTwice(h: Hashing, s: State, key: Key, evmAddr: string)
    requires Agrees(h, s)
    ensures var s' := UpdateProcessed(s, key, evmAddr); UpdateProcessed(s', key, evmAddr) == s'
  {
    var s' := UpdateProcessed(s, key, evmAddr);
    UpdateProcessedAgrees(h, s, key, evmAddr);
    FindIsTheRow(h, s, key);
    var id := if Find(s, key).Some? then Find(s, key).value else s.nextId;
    assert Find(s', key) == Some(id) by {
      assert s'.rows[id].key == key;
    }
    assert s'.rows[id := s'.rows[id].(status := Processed)] == s'.rows;
    RemoveFirstKeeps(s.rows, s.queue, key);
    NothingToRemove(s'.queue, key);
  }

  lemma {:induction false} NothingToRemove(q: seq<Row>, key: Key)
    requires forall x :: x in q ==> x.key != key
    ensures RemoveFirst(q, key) == q
    decreases |q|
  {
    if q != [] {
      assert q == [q[0]] + q[1..];
      NothingToRemove(q[1..], key);
    }
  }

  // ---------- What the steps write ----------

  // The row of an output, if the table has one.
  ghost predicate HasRow(s: State, key: Key, id: nat) {
    id in s.rows && s.rows[id].key == key
  }

  lemma FindIs(h: Hashing, s: State, key: Key, id: nat)
    requires Agrees(h, s) && HasRow(s, key, id)
    ensures Find(s, key) == Some(id)
  {
  }

  lemma FindNone(s: State, key: Key)
    requires forall id :: id in s.rows ==> s.rows[id].key != key
    ensures Find(s, key) == None
  {
  }

  // An output is new when no row has it: an arriving one is stored unconfirmed and queued, without block or proof.
  lemma ArrivalLaw(h: Hashing, s: State, row: Row, id: nat)
    requires Agrees(h, s)
    ensures HasRow(s, row.key, id) ==> Apply(h, s, Arrived(row)) == s
    ensures (forall x :: x in s.rows ==> s.rows[x].key != row.key) ==>
              var added := Row(s.nextId, row.key, row.amount, row.rawTx, row.evmAddr, row.signVersion, "", 0, 0, [], [], Unconfirmed);
              Apply(h, s, Arrived(row))
              == State(s.rows[s.nextId := added], s.nextId + 1, s.queue + [added], s.sigQueue, s.latest)
  {
    if HasRow(s, row.key, id) {
      FindIs(h, s, row.key, id);
    }
  }

  // A scanned output that its block proves is stored as confirmed there: a known row takes the amount, the block and the
  // proof and keeps the rest, a processed row keeps everything.
  lemma ScannedLaw(h: Hashing, s: State, row: Row, b: Block, id: nat)
    requires Agrees(h, s) && h.Prove(row.key.txHash, b).Ok?
    ensures var p, s' := h.Prove(row.key.txHash, b).value, Apply(h, s, Scanned(row, b));
            && s'.sigQueue == s.sigQueue && s'.latest == s.latest
            && (HasRow(s, row.key, id) ==> var known := s.rows[id];
                  && s'.nextId == s.nextId
                  && s'.rows == s.rows[id :=
                       if known.status == Processed then known
                       else Row(known.id, known.key, row.amount, known.rawTx, known.evmAddr, known.signVersion,
                                b.hash, b.height, p.txIndex, p.merkleRoot, p.proof, Confirmed)])
            && ((forall x :: x in s.rows ==> s.rows[x].key != row.key) ==>
                  && s'.nextId == s.nextId + 1
                  && s'.rows == s.rows[s.nextId :=
                       Row(s.nextId, row.key, row.amount, row.rawTx, row.evmAddr, row.signVersion,
                           b.hash, b.height, p.txIndex, p.merkleRoot, p.proof, Confirmed)])
    ensures forall x :: x in Apply(h, s, Scanned(row, b)).queue <==> x in s.queue && x.key != row.key
  {
    if HasRow(s, row.key, id) {
      FindIs(h, s, row.key, id);
    }
    RemoveFirstKeeps(s.rows, s.queue, row.key);
  }

  // A committed output becomes processed and the latest and leaves the queue; an unknown one is stored with its address.
  lemma CommittedLaw(h: Hashing, s: State, key: Key, evmAddr: string, id: nat)
    requires Agrees(h, s)
    ensures var s' := Apply(h, s, Committed(key, evmAddr));
            && (HasRow(s, key, id) ==> var done := s.rows[id].(status := Processed);
                  s'.rows == s.rows[id := done] && s'.nextId == s.nextId && s'.latest == Some(done))
            && ((forall x :: x in s.rows ==> s.rows[x].key != key) ==>
                  var done := Row(s.nextId, key, 0, "", evmAddr, 0, "", 0, 0, [], [], Processed);
                  s'.rows == s.rows[s.nextId := done] && s'.nextId == s.nextId + 1 && s'.latest == Some(done))
    ensures forall x :: x in Apply(h, s, Committed(key, evmAddr)).queue <==> x in s.queue && x.key != key
  {
    if HasRow(s, key, id) {
      FindIs(h, s, key, id);
    }
    RemoveFirstKeeps(s.rows, s.queue, key);
  }

  lemma {:induction false} SelectIs(rows: map<nat, Row>, n: nat, statuses: set<DepositStatus>, x: Row)
    requires forall id :: id in rows ==> rows[id].id == id
    ensures x in Select(rows, n, statuses) <==> x.id < n && x.id in rows && rows[x.id] == x && x.status in statuses
    ensures forall i, j :: 0 <= i < j < |Select(rows, n, statuses)| ==> Select(rows, n, statuses)[i].id < Select(rows, n, statuses)[j].id
    decreases n
  {
    if n > 0 {
      SelectIs(rows, n - 1, statuses, x);
      var front := Select(rows, n - 1, statuses);
      forall i | 0 <= i < |front| ensures front[i].id < n - 1 {
        SelectIs(rows, n - 1, statuses, front[i]);
        assert front[i] in front;
      }
    }
  }

  lemma {:induction false} LastIs(rows: map<nat, Row>, n: nat, id: nat)
    requires id < n && id in rows && rows[id].status == Processed
    requires forall x :: id < x < n && x in rows ==> rows[x].status != Processed
    ensures LastProcessed(rows, n) == Some(rows[id])
    decreases n
  {
    if id < n - 1 {
      LastIs(rows, n - 1, id);
    }
  }

  // A restart queues exactly the unconfirmed and confirmed rows, by id, and takes the processed row of the largest id for
  // the latest.
  lemma RestartLaw(h: Hashing, s: State, x: Row, id: nat)
    requires Agrees(h, s)
    ensures var s' := Apply(h, s, Restarted);
            && s'.rows == s.rows && s'.nextId == s.nextId
            && (x in s'.queue <==> x.id in s.rows && s.rows[x.id] == x && x.status in {Unconfirmed, Confirmed})
            && (forall i, j :: 0 <= i < j < |s'.queue| ==> s'.queue[i].id < s'.queue[j].id)
            && (id in s.rows && s.rows[id].status == Processed && (forall y :: y in s.rows && y > id ==> s.rows[y].status != Processed)
                ==> s'.latest == Some(s.rows[id]))
  {
    SelectIs(s.rows, s.nextId, {Unconfirmed, Confirmed}, x);
    if id in s.rows && s.rows[id].status == Processed && forall y :: y in s.rows && y > id ==> s.rows[y].status != Processed {
      LastIs(s.rows, s.nextId, id);
    }
  }
}
