/** What the wallet's storage and notification code does to the database, as
    functions from a database value to the next one. */
module Ledger {
  import opened Types

  datatype StoreResult = Stored(db: Db, tx: Tx) | OtherHash

  // ---------------------------------------------------------------- statuses

  predicate Waiting(s: Status) {
    s.Pending? || s.PendingColdStorage? || s.PendingManual? || s.Cancelled?
  }

  function StatusFor(cfg: Config, confirmations: int): Status {
    if confirmations <= 0 then New
    else if confirmations < cfg.maxConfirmations then Confirmed
    else FullyConfirmed
  }

  /** setTxStatusByConfirmations: only a broadcast status follows the count. */
  function WithStatus(cfg: Config, t: Tx): Tx {
    if Waiting(t.status) then t else t.(status := StatusFor(cfg, t.confirmations))
  }

  // ----------------------------------------------------------------- storing

  predicate SameKey(a: Tx, b: Tx) {
    a.hash == b.hash && a.direction == b.direction && a.address == b.address
  }

  /** The row StoreTransaction finds: by id first, then by hash, direction and address. */
  ghost function Existing(txs: map<TxId, Tx>, t: Tx): Option<TxId> {
    if t.id != NIL_ID && t.id in txs then Some(t.id)
    else if t.hash != "" && exists i :: i in txs && SameKey(txs[i], t) then
      var i :| i in txs && SameKey(txs[i], t); Some(i)
    else None
  }

  /** The columns an UPDATE overwrites. */
  function Merge(row: Tx, t: Tx): Tx {
    row.(hash := t.hash, blockHash := t.blockHash, confirmations := t.confirmations, status := t.status)
  }

  /** StoreTransaction; OtherHash is the panic in Transaction.Update. */
  ghost function Store(db: Db, t: Tx, newId: TxId): StoreResult {
    match Existing(db.txs, t)
    case Some(i) =>
      var row := db.txs[i];
      if row.hash != "" && row.hash != t.hash then OtherHash
      else Stored(db.(txs := db.txs[i := Merge(row, t)]), Merge(row, t))
    case None =>
      var row := t.(id := if t.id == NIL_ID then newId else t.id);
      Stored(db.(txs := db.txs[row.id := row]), row)
  }

  // --------------------------------------------------------------- notifying

  function KindFor(d: Direction, confirmations: int): EventType {
    match d
    case Incoming => if confirmations == 0 then NewIncomingTx else IncomingTxConfirmed
    case Outgoing => if confirmations == 0 then NewOutgoingTx else OutgoingTxConfirmed
  }

  /** The event notifyTransaction writes for confirmation number i. */
  function Report(cfg: Config, t: Tx, i: int): Event {
    Event(KindFor(t.direction, i),
          WithStatus(cfg, t.(confirmations := i,
                             reported := i - 1,
                             blockHash := if i == 0 then "" else t.blockHash)))
  }

  function Reports(cfg: Config, t: Tx, lo: int, hi: int): (es: seq<Event>)
    ensures |es| == if hi < lo then 0 else hi - lo + 1
    ensures forall k :: 0 <= k < |es| ==> es[k] == Report(cfg, t, lo + k)
    decreases hi - lo
  {
    if hi < lo then [] else Reports(cfg, t, lo, hi - 1) + [Report(cfg, t, hi)]
  }

  function SetReported(txs: map<TxId, Tx>, id: TxId, r: int): map<TxId, Tx> {
    if id in txs then txs[id := txs[id].(reported := r)] else txs
  }

  function Top(cfg: Config, t: Tx): int {
    Min(t.confirmations, cfg.maxConfirmations)
  }

  /** notifyTransaction, in one piece. */
  function Notify(cfg: Config, db: Db, t: Tx): Db {
    if Top(cfg, t) <= t.reported then db
    else db.(events := db.events + Reports(cfg, t, t.reported + 1, Top(cfg, t)),
             txs := SetReported(db.txs, t.id, Top(cfg, t)))
  }

  /** Transactions no event is written for while they are polled. */
  predicate Silent(cfg: Config, t: Tx) {
    t.address == cfg.hotAddress || t.cold
  }

  ghost function UpdateTxInfo(cfg: Config, db: Db, t: Tx, newId: TxId): StoreResult {
    var s := Store(db, WithStatus(cfg, t), newId);
    if s.OtherHash? || t.address == cfg.hotAddress || s.tx.cold then s
    else Stored(Notify(cfg, s.db, s.tx), s.tx)
  }

  /** One attempt of handleWithdrawalSuccess to save a withdrawal the node accepted:
      the row, its first event and the released lock.  Notification works on the
      caller's record, not on the stored one. */
  ghost function SaveSent(cfg: Config, db: Db, t: Tx): StoreResult {
    var s := Store(db, t, t.id);
    if s.OtherHash? then s
    else Stored((if t.cold then s.db else Notify(cfg, s.db, t)).(lock := None), AfterNotify(cfg, t))
  }

  /** What an attempt that got as far as notifying leaves in the caller's record. */
  function AfterNotify(cfg: Config, t: Tx): Tx {
    if t.cold then t else t.(reported := Max(t.reported, Top(cfg, t)))
  }

  // ---------------------------------------------------- pending and internal

  function PendingKind(s: Status): EventType {
    if s.Cancelled? then PendingTxCancelled else PendingStatusUpdated
  }

  ghost function UpdatePendingTxStatus(db: Db, t: Tx, s: Status): StoreResult {
    if t.status == s then Stored(db, t)
    else
      var r := Store(db, t.(status := s), t.id);
      if r.OtherHash? then r
      else Stored(r.db.(events := r.db.events + [Event(PendingKind(s), t.(status := s))]), t.(status := s))
  }

  function EffectiveFee(t: Tx): nat {
    if t.feeType.FixedFee? then t.fee else 0
  }

  ghost function StoreAndNotify(cfg: Config, db: Db, t: Tx, newId: TxId): StoreResult {
    var s := Store(db, t, newId);
    if s.OtherHash? then s else Stored(Notify(cfg, s.db, s.tx), s.tx)
  }

  /** The record of the withdrawing side of a transfer between our own accounts. */
  function TransferOut(cfg: Config, t: Tx): Tx {
    t.(fee := EffectiveFee(t), confirmations := cfg.maxConfirmations, status := FullyConfirmed)
  }

  /** The record of the receiving side. */
  function TransferIn(cfg: Config, t: Tx): Tx
    requires EffectiveFee(t) <= t.amount
  {
    TransferOut(cfg, t).(reported := -1, direction := Incoming, id := NIL_ID, amount := t.amount - EffectiveFee(t))
  }

  /** internalWithdrawBetweenOurAccounts, once the fee is known not to exceed the amount. */
  ghost function InternalTransfer(cfg: Config, db: Db, t: Tx, newId: TxId): StoreResult
    requires EffectiveFee(t) <= t.amount
  {
    var out := if t.cold then Stored(db, t) else StoreAndNotify(cfg, db, TransferOut(cfg, t), t.id);
    if out.OtherHash? then out else StoreAndNotify(cfg, out.db, TransferIn(cfg, t), newId)
  }
}
