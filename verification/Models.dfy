// Rows of the relayer's wallet tables, and the vocabulary they share.
module Models {
  import opened Common

  datatype WalletType = P2WPKH | P2PKH | P2SH | P2WSH | P2TR | OtherType

  // One enumeration for the status strings of orders, withdraws, vins, vouts and safebox tasks: orders
  // write their status into the rows that belong to them.
  datatype Status =
    | Create | Received | ReceivedOk | Aggregating | Init | InitOk | Pending | RbfRequest
    | Unconfirm | Confirmed | Processed | Completed | Canceling | Closed

  // Statuses of wallet outputs, in the order in which they advance.
  datatype CoinStatus = CoinUnconfirm | CoinConfirmed | CoinProcessed | CoinPending | CoinSpent

  datatype Source = FromDeposit | FromUnknown

  datatype OutPoint = OutPoint(txid: string, index: int)

  datatype Utxo = Utxo(
    outPoint: OutPoint, amount: int, receiverType: WalletType, source: Source,
    subScript: seq<byte>, status: CoinStatus, spentBlock: nat)

  // createdAt is in nanoseconds.
  datatype Withdraw = Withdraw(
    requestId: nat, amount: nat, txPrice: nat, txFee: int, to: string, status: Status,
    orderId: string, txid: string, reason: string, createdAt: nat)

  datatype OrderType = Withdrawal | Consolidation | Safebox

  datatype Order = Order(
    orderId: string, txid: string, orderType: OrderType, status: Status,
    pid: nat, btcBlock: nat, externalTxId: string)

  // prev is the output spent by the input.
  datatype Vin = Vin(orderId: string, prev: OutPoint, receiverType: WalletType, status: Status)

  // withdrawId names the withdrawal that the output pays, receiver is the address that its script encodes.
  datatype Vout = Vout(
    orderId: string, txid: string, outIndex: nat, withdrawId: Option<nat>, amount: int, receiver: string, status: Status)

  datatype Task = Task(
    taskId: nat, depositAddress: string, timelockAddress: string, deadline: nat, amount: nat,
    fundingTxid: string, fundingOutIndex: nat, timelockTxid: string, timelockOutIndex: nat,
    status: Status, orderId: string)

  datatype DepositResult = DepositResult(address: string, amount: nat, blockHash: string, needFetchSubScript: bool)
}
