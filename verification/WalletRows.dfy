// The wallet database: its tables, and the statements that the relayer's steps run on them.
module WalletRows {
  import opened Common
  import opened Models

  // A table with a unique key is a map.  orderIds and taskIds list the keys in insertion order, which is
  // the primary-key order that queries use.
  datatype Db = Db(
    utxos: map<OutPoint, Utxo>,
    orders: map<string, Order>, orderIds: seq<string>,
    withdraws: map<nat, Withdraw>,
    vins: seq<Vin>, vouts: seq<Vout>,
    tasks: map<nat, Task>, taskIds: seq<nat>,
    deposits: map<OutPoint, DepositResult>)

  const EMPTY_DB := Db(map[], map[], [], map[], [], [], map[], [], map[])

  datatype DbError =
    | NotFound | Duplicate | EmptyInsert | BadStatus | MissingArguments | BadScript | NilRow

  // ---------- Coins ----------

  function Rank(s: CoinStatus): nat {
    match s
    case CoinUnconfirm => 0
    case CoinConfirmed => 1
    case CoinProcessed => 2
    case CoinPending => 3
    case CoinSpent => 4
  }

  predicate Spendable(u: Utxo) {
    u.status == CoinConfirmed || u.status == CoinProcessed
  }

  predicate Allocated(u: Utxo) {
    u.status == CoinPending || u.status == CoinSpent
  }

  function Hold(u: Utxo): Utxo {
    if Allocated(u) then u else u.(status := CoinPending)
  }

  function Release(u: Utxo): Utxo {
    if u.status == CoinPending then u.(status := CoinProcessed) else u
  }

  function Spend(u: Utxo, block: nat): Utxo {
    if u.status == CoinSpent then u else u.(status := CoinSpent, spentBlock := block)
  }

  function HoldCoins(utxos: map<OutPoint, Utxo>, ops: set<OutPoint>): map<OutPoint, Utxo> {
    map op | op in utxos :: if op in ops then Hold(utxos[op]) else utxos[op]
  }

  function ReleaseCoins(utxos: map<OutPoint, Utxo>, ops: set<OutPoint>): map<OutPoint, Utxo> {
    map op | op in utxos :: if op in ops then Release(utxos[op]) else utxos[op]
  }

  function SpendCoins(utxos: map<OutPoint, Utxo>, ops: set<OutPoint>, block: nat): map<OutPoint, Utxo> {
    map op | op in utxos :: if op in ops then Spend(utxos[op], block) else utxos[op]
  }

  // ---------- Vins and vouts ----------

  // The outputs spent by an order.
  function VinsOf(vins: seq<Vin>, orderId: string): set<OutPoint> {
    set i | 0 <= i < |vins| && vins[i].orderId == orderId :: vins[i].prev
  }

  // Equal up to status.
  ghost predicate SameVins(a: seq<Vin>, b: seq<Vin>) {
    |a| == |b| && forall i :: 0 <= i < |a| ==> a[i].orderId == b[i].orderId && a[i].prev == b[i].prev
  }

  function VinsByOrder(vins: seq<Vin>, orderId: string, status: Status): (r: seq<Vin>)
    ensures SameVins(vins, r)
  {
    seq(|vins|, i requires 0 <= i < |vins| =>
      if vins[i].orderId == orderId then vins[i].(status := status) else vins[i])
  }

  function VinsByPrevTxid(vins: seq<Vin>, txid: string, status: Status): (r: seq<Vin>)
    ensures SameVins(vins, r)
  {
    seq(|vins|, i requires 0 <= i < |vins| =>
      if vins[i].prev.txid == txid then vins[i].(status := status) else vins[i])
  }

  function VinsByStatuses(vins: seq<Vin>, raw: set<Status>, status: Status): (r: seq<Vin>)
    ensures SameVins(vins, r)
  {
    seq(|vins|, i requires 0 <= i < |vins| =>
      if vins[i].status in raw then vins[i].(status := status) else vins[i])
  }

  function VoutsByOrder(vouts: seq<Vout>, orderId: string, status: Status): seq<Vout> {
    seq(|vouts|, i requires 0 <= i < |vouts| =>
      if vouts[i].orderId == orderId then vouts[i].(status := status) else vouts[i])
  }

  function VoutsByTxid(vouts: seq<Vout>, txid: string, status: Status): seq<Vout> {
    seq(|vouts|, i requires 0 <= i < |vouts| =>
      if vouts[i].txid == txid then vouts[i].(status := status) else vouts[i])
  }

  function VoutsByStatuses(vouts: seq<Vout>, raw: set<Status>, status: Status): seq<Vout> {
    seq(|vouts|, i requires 0 <= i < |vouts| =>
      if vouts[i].status in raw then vouts[i].(status := status) else vouts[i])
  }

  // ---------- Withdraws and tasks ----------

  // An empty set of raw statuses puts no condition on the status.
  function WithdrawsByOrder(ws: map<nat, Withdraw>, orderId: string, raw: set<Status>, status: Status): map<nat, Withdraw> {
    map id | id in ws ::
      if ws[id].orderId == orderId && (raw == {} || ws[id].status in raw) then ws[id].(status := status) else ws[id]
  }

  function WithdrawsByTxid(ws: map<nat, Withdraw>, txid: string, status: Status): map<nat, Withdraw> {
    map id | id in ws :: if ws[id].txid == txid then ws[id].(status := status) else ws[id]
  }

  function WithdrawsByStatuses(ws: map<nat, Withdraw>, raw: set<Status>, status: Status): map<nat, Withdraw> {
    map id | id in ws :: if ws[id].status in raw then ws[id].(status := status) else ws[id]
  }

  function TasksByOrder(tasks: map<nat, Task>, orderId: string, raw: set<Status>, status: Status): map<nat, Task> {
    map id | id in tasks ::
      if tasks[id].orderId == orderId && (raw == {} || tasks[id].status in raw) then tasks[id].(status := status)
      else tasks[id]
  }

  function TasksByTimelockTxid(tasks: map<nat, Task>, txid: string, status: Status): map<nat, Task> {
    map id | id in tasks :: if tasks[id].timelockTxid == txid then tasks[id].(status := status) else tasks[id]
  }

  // ---------- Statements over several tables ----------

  function UpdateOtherStatusByOrder(db: Db, orderId: string, status: Status, excludeWithdraw: bool): Db {
    var d := if excludeWithdraw then db else
               db.(withdraws := WithdrawsByOrder(db.withdraws, orderId, {}, status),
                   tasks := TasksByOrder(db.tasks, orderId, {}, status));
    d.(vins := VinsByOrder(d.vins, orderId, status), vouts := VoutsByOrder(d.vouts, orderId, status))
  }

  // A vin's txid is that of the transaction whose output it spends.
  function UpdateOtherStatusByTxid(db: Db, txid: string, status: Status): Db {
    db.(withdraws := WithdrawsByTxid(db.withdraws, txid, status),
        tasks := TasksByTimelockTxid(db.tasks, txid, status),
        vins := VinsByPrevTxid(db.vins, txid, status),
        vouts := VoutsByTxid(db.vouts, txid, status))
  }

  function UpdateOtherStatusByStatuses(db: Db, status: Status, raw: set<Status>): Db {
    db.(vins := VinsByStatuses(db.vins, raw, status), vouts := VoutsByStatuses(db.vouts, raw, status))
  }

  // ---------- Orders ----------

  predicate Final(s: Status) {
    s == Confirmed || s == Processed || s == Closed
  }

  // The order with a transaction id that was inserted last.
  function NewestByTxid(orders: map<string, Order>, ids: seq<string>, txid: string): (r: Option<string>)
    ensures r.Some? ==> r.value in orders && orders[r.value].txid == txid && r.value in ids
    ensures r.None? ==> forall id :: id in ids && id in orders ==> orders[id].txid != txid
  {
    if ids == [] then None else
    var last := ids[|ids| - 1];
    if last in orders && orders[last].txid == txid then Some(last)
    else
      assert forall id :: id in ids ==> id in ids[..|ids| - 1] || id == last;
      NewestByTxid(orders, ids[..|ids| - 1], txid)
  }

  // The first inserted order in a status.
  function FirstInStatus(orders: map<string, Order>, ids: seq<string>, status: Status): (r: Option<string>)
    ensures r.Some? ==> r.value in orders && orders[r.value].status == status && r.value in ids
    ensures r.None? ==> forall id :: id in ids && id in orders ==> orders[id].status != status
  {
    if ids == [] then None
    else if ids[0] in orders && orders[ids[0]].status == status then Some(ids[0])
    else
      assert forall id :: id in ids ==> id == ids[0] || id in ids[1..];
      FirstInStatus(orders, ids[1..], status)
  }

  // ---------- Safebox tasks ----------

  predicate Finished(s: Status) {
    s == Processed || s == Completed || s == Closed
  }

  // The first inserted task that satisfies a query.
  function FirstTask(tasks: map<nat, Task>, ids: seq<nat>, query: Task -> bool): (r: Option<nat>)
    ensures r.Some? ==> r.value in tasks && query(tasks[r.value])
    ensures r.None? ==> forall id :: id in ids && id in tasks ==> !query(tasks[id])
  {
    if ids == [] then None
    else if ids[0] in tasks && query(tasks[ids[0]]) then Some(ids[0])
    else
      assert forall id :: id in ids ==> id == ids[0] || id in ids[1..];
      FirstTask(tasks, ids[1..], query)
  }

  function ProcessingByAddress(depositAddress: string): Task -> bool {
    (t: Task) => t.depositAddress == depositAddress && !Finished(t.status)
  }

  function ProcessingByTimelockAddress(timelockAddress: string): Task -> bool {
    (t: Task) => t.timelockAddress == timelockAddress && !Finished(t.status)
  }

  function InitByTimelockTxid(timelockTxid: string): Task -> bool {
    (t: Task) => t.timelockTxid == timelockTxid && t.status == Init
  }
}
