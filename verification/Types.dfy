/** The records of the wallet database, as values. */
module Types {

  /** Internal identifier of a transaction; zero plays the part of the nil uuid. */
  type TxId = nat

  const NIL_ID: TxId := 0

  datatype Option<+T> = None | Some(value: T)

  datatype Direction = Incoming | Outgoing

  datatype Status =
    | New
    | Confirmed
    | FullyConfirmed
    | Pending
    | PendingColdStorage
    | PendingManual
    | Cancelled

  datatype FeeType = InvalidFee | PerKBRateFee | FixedFee

  /** One row of the transactions table; `reported` is the highest number of
      confirmations an event was written for, -1 when there was none. */
  datatype Tx = Tx(
    id: TxId,
    hash: string,
    blockHash: string,
    confirmations: int,
    address: string,
    direction: Direction,
    status: Status,
    amount: nat,
    fee: nat,
    feeType: FeeType,
    cold: bool,
    reported: int)

  datatype EventType =
    | NewIncomingTx
    | IncomingTxConfirmed
    | NewOutgoingTx
    | OutgoingTxConfirmed
    | PendingStatusUpdated
    | PendingTxCancelled

  datatype Event = Event(kind: EventType, tx: Tx)

  datatype Config = Config(
    maxConfirmations: int,
    hotAddress: string,
    coldAddress: string,
    minWithdraw: nat,
    minFeePerKb: nat,
    minFeeFixed: nat,
    holdAbove: nat)

  /** The tables and metadata keys the wallet reads and writes.  `lock` is the
      wallet_operation key: the withdrawal that may be on its way to the node. */
  datatype Db = Db(
    txs: map<TxId, Tx>,
    events: seq<Event>,
    lock: Option<Tx>,
    lastBlock: string,
    coldNeed: nat,
    accounts: set<string>)

  /** How a database transaction ends: installed, dropped, or installed although
      the commit call came back with an error. */
  datatype Commit = Committed | Dropped | Unreported

  function Min(a: int, b: int): int {
    if a < b then a else b
  }

  function Max(a: int, b: int): int {
    if a > b then a else b
  }

  /** One of the eleven attempts to save an outcome is reported as committed. */
  predicate SavedInTime(saves: nat -> Commit) {
    exists k: nat :: k <= 10 && saves(k) == Committed
  }

  lemma InTime(saves: nat -> Commit, k: nat)
    requires k <= 10 && saves(k) == Committed
    ensures SavedInTime(saves)
  {
  }

  lemma NotInTime(saves: nat -> Commit)
    requires forall k: nat :: k < 11 ==> saves(k) != Committed
    ensures !SavedInTime(saves)
  {
  }
}
