// Small runs from the empty database, for the statements that some claim fails.
module Witnesses {
  import opened Common
  import opened Models
  import opened WalletRows
  import opened OrderSteps
  import CoinSteps
  import opened WalletRuns

  function Coin(k: nat): Utxo {
    Utxo(OutPoint("deposit", k), 1_000_000, P2WPKH, FromDeposit, [], CoinProcessed, 0)
  }

  function CoinEvent(k: nat): Event {
    CoinFound(CoinSteps.Found(Coin(k), false, 0, 0, 0))
  }

  function Waiting(id: nat): Withdraw {
    Withdraw(id, 500_000, 10, 0, "receiver", Create, "", "", "", 0)
  }

  // An order that pays one withdrawal from one coin.
  function Paying(orderId: string, txid: string, k: nat, id: nat): NewOrder {
    NewOrder(Order(orderId, txid, Withdrawal, Aggregating, 0, 0, ""), [Coin(k).outPoint], [id], [],
             [Vin(orderId, Coin(k).outPoint, P2WPKH, Aggregating)],
             [Vout(orderId, txid, 0, Some(id), 490_000, "receiver", Aggregating)])
  }

  // ---------- What a database is known to hold ----------

  ghost predicate Free(db: Db, k: nat) {
    Coin(k).outPoint in db.utxos && Spendable(db.utxos[Coin(k).outPoint])
  }

  ghost predicate Spends(db: Db, orderId: string, k: nat) {
    exists i :: 0 <= i < |db.vins| && db.vins[i].orderId == orderId && db.vins[i].prev == Coin(k).outPoint
  }

  ghost predicate HasOrderIn(db: Db, orderId: string, txid: string, status: Status) {
    orderId in db.orders && db.orders[orderId].txid == txid && db.orders[orderId].status == status
  }

  ghost predicate HasWithdraw(db: Db, id: nat, status: Status) {
    id in db.withdraws && db.withdraws[id].status == status
  }

  // Two coins are free and two withdrawals wait.
  ghost predicate Funded(db: Db) {
    && Free(db, 0) && Free(db, 1) && db.utxos.Keys == {Coin(0).outPoint, Coin(1).outPoint}
    && HasWithdraw(db, 7, Create) && HasWithdraw(db, 8, Create)
    && db.orders == map[] && db.orderIds == [] && db.vins == [] && db.vouts == []
  }

  // One order spends the first coin for the first withdrawal.
  ghost predicate OneOrdered(db: Db, status: Status) {
    && db.orderIds == ["first"] && db.orders.Keys == {"first"} && HasOrderIn(db, "first", "tx1", status)
    && |db.vins| == 1 && db.vins[0].orderId == "first" && db.vins[0].prev == Coin(0).outPoint
    && |db.vouts| == 1 && db.vouts[0].orderId == "first" && db.vouts[0].withdrawId == Some(7)
    && db.utxos.Keys == {Coin(0).outPoint, Coin(1).outPoint} && Free(db, 1) && HasWithdraw(db, 8, Create)
  }

  // ---------- Steps ----------

  lemma FindCoin(build: CoinSteps.ScriptBuilder, db: Db, k: nat)
    requires Coin(k).outPoint !in db.utxos
    ensures Apply(build, db, CoinEvent(k)) == db.(utxos := db.utxos[Coin(k).outPoint := Coin(k)])
  {
  }

  lemma Request(build: CoinSteps.ScriptBuilder, db: Db, id: nat)
    requires id !in db.withdraws
    ensures Apply(build, db, WithdrawCreated(Waiting(id))) == db.(withdraws := db.withdraws[id := Waiting(id)])
  {
  }

  lemma Pay(db: Db, orderId: string, txid: string, k: nat, id: nat, isProposer: bool)
    requires orderId !in db.orders && Free(db, k) && HasWithdraw(db, id, Create)
    ensures var n := Paying(orderId, txid, k, id);
            CreateSendOrder(db, n, isProposer)
            == Ok(InsertOrder(db, n.order).(vins := db.vins + n.vins, vouts := db.vouts + n.vouts,
                                            utxos := HoldCoins(db.utxos, {Coin(k).outPoint}),
                                            withdraws := TakeWithdraws(db.withdraws, [id], n.order)))
  {
    var n := Paying(orderId, txid, k, id);
    assert CoinsFree(db.utxos, n.coins) && WithdrawsTakeable(db.withdraws, n.withdrawIds, isProposer);
    assert ToSet(n.coins) == {Coin(k).outPoint};
  }

  lemma Created(build: CoinSteps.ScriptBuilder, db: Db, n: NewOrder, isProposer: bool)
    requires CreateSendOrder(db, n, isProposer).Ok?
    ensures Apply(build, db, OrderCreated(n, isProposer)) == CreateSendOrder(db, n, isProposer).value
  {
  }

  lemma FirstOrder(build: CoinSteps.ScriptBuilder, db: Db, isProposer: bool)
    requires Funded(db)
    ensures var db' := Apply(build, db, OrderCreated(Paying("first", "tx1", 0, 7), isProposer));
            && OneOrdered(db', Aggregating) && HasWithdraw(db', 7, Aggregating) && db'.withdraws[7].orderId == "first"
            && db'.utxos[Coin(0).outPoint].status == CoinPending
  {
    Pay(db, "first", "tx1", 0, 7, isProposer);
    Created(build, db, Paying("first", "tx1", 0, 7), isProposer);
  }

  lemma RunOfTwo(build: CoinSteps.ScriptBuilder, db: Db, a: Event, b: Event)
    ensures Run(build, db, [a, b]) == Apply(build, Apply(build, db, a), b)
  {
    assert [a, b] == [a] + [b] && [a] == [] + [a];
    RunSnoc(build, db, [a], b);
    RunSnoc(build, db, [], a);
  }

  // ---------- Runs ----------

  function Funding(): seq<Event> {
    [CoinEvent(1), CoinEvent(0)] + [WithdrawCreated(Waiting(8))] + [WithdrawCreated(Waiting(7))]
  }

  lemma TwoFreeCoins(build: CoinSteps.ScriptBuilder)
    ensures var db := Run(build, EMPTY_DB, [CoinEvent(1), CoinEvent(0)]);
            db == EMPTY_DB.(utxos := map[Coin(1).outPoint := Coin(1), Coin(0).outPoint := Coin(0)])
  {
    var d := Apply(build, EMPTY_DB, CoinEvent(1));
    FindCoin(build, EMPTY_DB, 1);
    FindCoin(build, d, 0);
    RunOfTwo(build, EMPTY_DB, CoinEvent(1), CoinEvent(0));
  }

  lemma FundingFacts(build: CoinSteps.ScriptBuilder)
    ensures Funded(Run(build, EMPTY_DB, Funding()))
  {
    var coins := [CoinEvent(1), CoinEvent(0)];
    var d := Run(build, EMPTY_DB, coins);
    TwoFreeCoins(build);
    RunSnoc(build, EMPTY_DB, coins, WithdrawCreated(Waiting(8)));
    RunSnoc(build, EMPTY_DB, coins + [WithdrawCreated(Waiting(8))], WithdrawCreated(Waiting(7)));
    Request(build, d, 8);
    Request(build, Apply(build, d, WithdrawCreated(Waiting(8))), 7);
  }

  // One order aggregates, of a proposer or at a voter.
  function OneOrder(isProposer: bool): seq<Event> {
    Funding() + [OrderCreated(Paying("first", "tx1", 0, 7), isProposer)]
  }

  lemma OneOrderFacts(build: CoinSteps.ScriptBuilder, isProposer: bool)
    ensures var db := Run(build, EMPTY_DB, OneOrder(isProposer));
            && OneOrdered(db, Aggregating) && HasWithdraw(db, 7, Aggregating) && db.withdraws[7].orderId == "first"
            && db.utxos[Coin(0).outPoint].status == CoinPending
  {
    FundingFacts(build);
    FirstOrder(build, Run(build, EMPTY_DB, Funding()), isProposer);
    RunSnoc(build, EMPTY_DB, Funding(), OrderCreated(Paying("first", "tx1", 0, 7), isProposer));
  }

  // A voter keeps the order of one proposal and gets another one.
  function TwoOrders(): seq<Event> {
    OneOrder(false) + [OrderCreated(Paying("second", "tx2", 1, 8), false)]
  }

  lemma SecondOrder(db: Db)
    requires OneOrdered(db, Aggregating)
    ensures var r := CreateSendOrder(db, Paying("second", "tx2", 1, 8), false);
            && r.Ok? && r.value.orderIds == ["first", "second"]
            && HasOrderIn(r.value, "first", "tx1", Aggregating) && HasOrderIn(r.value, "second", "tx2", Aggregating)
  {
    Pay(db, "second", "tx2", 1, 8, false);
  }

  lemma TwoOrdersFacts(build: CoinSteps.ScriptBuilder)
    ensures var db := Run(build, EMPTY_DB, TwoOrders());
            && db.orderIds == ["first", "second"]
            && HasOrderIn(db, "first", "tx1", Aggregating) && HasOrderIn(db, "second", "tx2", Aggregating)
  {
    var d := Run(build, EMPTY_DB, OneOrder(false));
    OneOrderFacts(build, false);
    SecondOrder(d);
    Created(build, d, Paying("second", "tx2", 1, 8), false);
    RunSnoc(build, EMPTY_DB, OneOrder(false), OrderCreated(Paying("second", "tx2", 1, 8), false));
  }
}
