/** The wallet updater as a step machine: one process over a database, a bitcoin
    node and a chain, with database faults, lost replies to commits, crashes and
    restarts.  Every choice of the environment is an argument of the action. */
module WalletMachine {
  import opened Types
  import opened Ledger
  import opened LedgerInvariant

  // -------------------------------------------------------------- the world

  /** A withdrawal the node has broadcast for us. */
  datatype Broadcast = Broadcast(id: TxId, hash: string, address: string, amount: nat, cold: bool)

  /** Where the wallet updater goroutine is.  Between requests it is Idle; inside
      sendWithdrawal it has committed the lock, has the node's hash in hand, or has
      the node's refusal in hand. */
  datatype Process =
    | Down
    | Idle
    | Locked(tx: Tx)
    | Sent(tx: Tx, tries: nat)
    | Failed(tx: Tx, makePending: bool, tries: nat)

  datatype Entry = Entry(hash: string, direction: Direction, address: string)

  /** Output number `vout` of a transaction that pays into or out of the wallet. */
  datatype Output = Output(entry: Entry, vout: nat, amount: nat)

  datatype Block = Block(hash: string, outputs: set<Output>)

  /** A transfer between our own accounts that was carried out. */
  datatype Move = Move(id: TxId, cold: bool)

  datatype World = World(
    db: Db,
    proc: Process,
    sent: seq<Broadcast>,
    chain: seq<Block>,
    confirmed: set<TxId>,
    past: Past,
    panicked: bool,
    listed: seq<NodeTx>,
    moved: seq<Move>)

  const SAVE_RETRIES: nat := 10

  function Genesis(accounts: set<string>): World {
    World(Db(map[], [], None, "", 0, accounts), Down, [], [], {}, Past({}, {}, []), false, [], [])
  }

  // ------------------------------------------------------------- the actions

  datatype Request = Request(id: TxId, address: string, amount: nat, fee: nat, feeType: FeeType)

  datatype Reply = Accepted(hash: string) | Refused(insufficientFunds: bool)

  /** How one attempt to save the outcome of a send ends; a dropped attempt may have
      got past the notification. */
  datatype Attempt = Saved | SavedUnreported | NotSaved(notified: bool)

  datatype NodeTx = NodeTx(
    hash: string, blockHash: string, confirmations: int, address: string, direction: Direction, amount: nat,
    vout: nat)

  datatype Info = Info(confirmations: int, blockHash: string)

  datatype Mark = Mark(id: TxId, status: Status)

  datatype Action =
    | Withdraw(request: Request, toCold: bool, out: Commit, newId: TxId)
    | Confirm(id: TxId, out: Commit, newId: TxId)
    | Resend(id: TxId, out: Commit, newId: TxId)
    | NodeReplies(reply: Reply)
    | Persist(attempt: Attempt)
    | Cancel(id: TxId, out: Commit)
    | MarkPending(marks: seq<Mark>, need: nat, out: Commit)
    | PollNew(entries: seq<NodeTx>, lastBlock: string, ids: seq<TxId>, out: Commit)
    | PollKnown(order: seq<TxId>, infos: map<string, Info>, out: Commit)
    | AddAccount(address: string)
    | Mine(block: Block)
    | Crash
    | Restart

  // ---------------------------------------------------------- new withdrawals

  /** Withdraw and checkWithdrawLimits: the record to process and whether to hold it. */
  function Admit(cfg: Config, r: Request, toCold: bool): Option<(Tx, bool)> {
    var address := if r.address == "" && toCold then cfg.coldAddress else r.address;
    if !toCold && r.amount < cfg.minWithdraw then None
    else if !toCold && r.feeType.PerKBRateFee? && r.fee < cfg.minFeePerKb then None
    else if !toCold && r.feeType.FixedFee? && r.fee < cfg.minFeeFixed then None
    else if address == "" || address == cfg.hotAddress then None
    else Some((Tx(r.id, "", "", 0, address, Outgoing, New, r.amount, r.fee, r.feeType, toCold, -1),
               !toCold && r.amount > cfg.holdAbove))
  }

  function Panic(w: World): World {
    w.(proc := Down, panicked := true)
  }

  /** A database transaction from Idle: a panic inside rolls it back. */
  function Transact(w: World, r: StoreResult, out: Commit): World {
    if r.OtherHash? then Panic(w)
    else if out.Dropped? then w
    else w.(db := r.db)
  }

  /** The database transaction of a transfer between our own accounts. */
  function Transfer(w: World, t: Tx, r: StoreResult, out: Commit): World {
    var w' := Transact(w, r, out);
    if r.OtherHash? || out.Dropped? then w' else w'.(moved := w.moved + [Move(t.id, t.cold)])
  }

  /** sendWithdrawal up to the call to the node. */
  ghost function Dispatch(cfg: Config, w: World, t: Tx, out: Commit, newId: TxId): World {
    if t.address in w.db.accounts then
      if t.amount < EffectiveFee(t) then w
      else Transfer(w, t, InternalTransfer(cfg, w.db, t, newId), out)
    else if t.feeType.InvalidFee? || out.Dropped? then w
    else w.(db := w.db.(lock := Some(t)), proc := if out.Committed? then Locked(t) else Idle)
  }

  ghost function DoWithdraw(cfg: Config, w: World, r: Request, toCold: bool, out: Commit, newId: TxId): World {
    match Admit(cfg, r, toCold)
    case None => w
    case Some((t, hold)) =>
      if t.id in w.db.txs then w
      else if hold then Transact(w, UpdatePendingTxStatus(w.db, t, PendingManual), out)
      else Dispatch(cfg, w, t, out, newId)
  }

  ghost function DoConfirm(cfg: Config, w: World, id: TxId, out: Commit, newId: TxId): World {
    if id in w.db.txs && w.db.txs[id].status.PendingManual? then
      Dispatch(cfg, w.(confirmed := w.confirmed + {id}), w.db.txs[id], out, newId)
    else w
  }

  predicate Scheduled(s: Status) {
    s.Pending? || s.PendingColdStorage?
  }

  ghost function DoResend(cfg: Config, w: World, id: TxId, out: Commit, newId: TxId): World {
    if id in w.db.txs && Scheduled(w.db.txs[id].status) then Dispatch(cfg, w, w.db.txs[id], out, newId) else w
  }

  // -------------------------------------------------- the node and persisting

  function BroadcastOf(t: Tx): Broadcast {
    Broadcast(t.id, t.hash, t.address, t.amount, t.cold)
  }

  function DoReply(w: World, t: Tx, r: Reply): World {
    match r
    case Accepted(h) =>
      var t' := t.(status := New, hash := h);
      w.(sent := w.sent + [BroadcastOf(t')], proc := Sent(t', SAVE_RETRIES))
    case Refused(insufficient) =>
      w.(proc := Failed(t, insufficient && !t.cold, SAVE_RETRIES))
  }

  /** After a failed attempt: retry, or panic when none is left. */
  function AgainSent(t: Tx, tries: nat): Process {
    if tries == 0 then Down else Sent(t, tries - 1)
  }

  /** A dropped attempt that got past the notification swallows the first event. */
  function Swallow(past: Past, txs: map<TxId, Tx>, t: Tx): Past {
    if t.cold || t.reported == 0 then past
    else if t.id in txs then past.(delayed := past.delayed + {t.id})
    else past.(lost := past.lost + {t.id})
  }

  ghost function DoPersistSent(cfg: Config, w: World, t: Tx, tries: nat, a: Attempt): World {
    var r := SaveSent(cfg, w.db, t);
    match a
    case NotSaved(notified) =>
      w.(proc := AgainSent(if notified then AfterNotify(cfg, t) else t, tries),
         past := if notified then Swallow(w.past, w.db.txs, t) else w.past)
    case Saved => if r.OtherHash? then Panic(w) else w.(db := r.db, proc := Idle)
    case SavedUnreported => if r.OtherHash? then Panic(w) else w.(db := r.db, proc := AgainSent(r.tx, tries))
  }

  ghost function SaveFailed(db: Db, t: Tx, makePending: bool): StoreResult {
    var r := if makePending then UpdatePendingTxStatus(db, t, Pending) else Stored(db, t);
    if r.OtherHash? then r else Stored(r.db.(lock := None), r.tx)
  }

  function AgainFailed(t: Tx, makePending: bool, tries: nat): Process {
    if tries == 0 then Down else Failed(t, makePending, tries - 1)
  }

  ghost function DoPersistFailed(w: World, t: Tx, makePending: bool, tries: nat, a: Attempt): World {
    var r := SaveFailed(w.db, t, makePending);
    match a
    case NotSaved(_) => w.(proc := AgainFailed(t, makePending, tries))
    case Saved => if r.OtherHash? then Panic(w) else w.(db := r.db, proc := Idle)
    case SavedUnreported => if r.OtherHash? then Panic(w) else w.(db := r.db, proc := AgainFailed(t, makePending, tries))
  }

  // ------------------------------------------------- cancelling and scheduling

  ghost function DoCancel(w: World, id: TxId, out: Commit): World {
    if id in w.db.txs && (Scheduled(w.db.txs[id].status) || w.db.txs[id].status.PendingManual?) then
      Transact(w, UpdatePendingTxStatus(w.db, w.db.txs[id], Cancelled), out)
    else w
  }

  /** The status updates at the end of a pass over the pending withdrawals. */
  ghost function MarkAll(db: Db, marks: seq<Mark>): StoreResult {
    if marks == [] then Stored(db, Tx(NIL_ID, "", "", 0, "", Outgoing, New, 0, 0, InvalidFee, false, -1))
    else
      var m := marks[|marks| - 1];
      var r := MarkAll(db, marks[..|marks| - 1]);
      if r.OtherHash? || m.id !in r.db.txs || !Scheduled(r.db.txs[m.id].status) || !Scheduled(m.status) then r
      else UpdatePendingTxStatus(r.db, r.db.txs[m.id], m.status)
  }

  ghost function DoMark(w: World, marks: seq<Mark>, need: nat, out: Commit): World {
    var r := MarkAll(w.db, marks);
    Transact(w, if r.OtherHash? then r else Stored(r.db.(coldNeed := need), r.tx), out)
  }

  // ------------------------------------------------------------------ polling

  /** NewTransactionFromBTCJSON. */
  function FromNode(n: NodeTx): Tx {
    Tx(NIL_ID, n.hash, n.blockHash, n.confirmations, n.address, n.direction, New, n.amount, 0, InvalidFee, false, -1)
  }

  datatype Scan = Scan(db: Db, past: Past) | ScanPanic

  ghost function TakeIn(cfg: Config, s: Scan, t: Tx, newId: TxId): Scan {
    if s.ScanPanic? then s
    else
      var r := UpdateTxInfo(cfg, s.db, t, newId);
      if r.OtherHash? then ScanPanic
      else Scan(r.db, s.past.(polled := s.past.polled + [Poll(r.tx.id, t.confirmations)]))
  }

  /** checkForNewTransactions, entry by entry. */
  ghost function ScanNew(cfg: Config, s: Scan, entries: seq<NodeTx>, ids: seq<TxId>): Scan
    requires |ids| == |entries|
  {
    if entries == [] then s
    else
      var n := |entries| - 1;
      TakeIn(cfg, ScanNew(cfg, s, entries[..n], ids[..n]), FromNode(entries[n]), ids[n])
  }

  /** checkForExistingTransactionUpdates, row by row. */
  ghost function ScanKnown(cfg: Config, s: Scan, order: seq<TxId>, infos: map<string, Info>): Scan {
    if order == [] then s
    else
      var n := |order| - 1;
      var p := ScanKnown(cfg, s, order[..n], infos);
      if p.ScanPanic? || order[n] !in p.db.txs || p.db.txs[order[n]].hash !in infos then p
      else TakeIn(cfg, p, Refreshed(p.db.txs[order[n]], infos), NIL_ID)
  }

  function Refreshed(row: Tx, infos: map<string, Info>): Tx
    requires row.hash in infos
  {
    row.(confirmations := infos[row.hash].confirmations, blockHash := infos[row.hash].blockHash)
  }

  ghost function DoPoll(w: World, s: Scan, lastBlock: string, out: Commit): World {
    if s.ScanPanic? then Panic(w)
    else if out.Dropped? then w
    else w.(db := s.db.(lastBlock := lastBlock), past := s.past)
  }

  /** A committed poll of the node's listing has taken its entries in. */
  ghost function DoPollNew(w: World, s: Scan, entries: seq<NodeTx>, lastBlock: string, out: Commit): World {
    var w' := DoPoll(w, s, lastBlock, out);
    if s.ScanPanic? || out.Dropped? then w' else w'.(listed := w.listed + entries)
  }

  // --------------------------------------------------------------- the machine

  ghost function Next(cfg: Config, w: World, a: Action): World {
    match a
    case Withdraw(r, toCold, out, newId) => if w.proc.Idle? then DoWithdraw(cfg, w, r, toCold, out, newId) else w
    case Confirm(id, out, newId) => if w.proc.Idle? then DoConfirm(cfg, w, id, out, newId) else w
    case Resend(id, out, newId) => if w.proc.Idle? then DoResend(cfg, w, id, out, newId) else w
    case NodeReplies(r) => if w.proc.Locked? then DoReply(w, w.proc.tx, r) else w
    case Persist(t) =>
      if w.proc.Sent? then DoPersistSent(cfg, w, w.proc.tx, w.proc.tries, t)
      else if w.proc.Failed? then DoPersistFailed(w, w.proc.tx, w.proc.makePending, w.proc.tries, t)
      else w
    case Cancel(id, out) => if w.proc.Idle? then DoCancel(w, id, out) else w
    case MarkPending(marks, need, out) => if w.proc.Idle? then DoMark(w, marks, need, out) else w
    case PollNew(entries, lastBlock, ids, out) =>
      if w.proc.Idle? && |ids| == |entries| then
        DoPollNew(w, ScanNew(cfg, Scan(w.db, w.past), entries, ids), entries, lastBlock, out)
      else w
    case PollKnown(order, infos, out) =>
      if w.proc.Idle? then DoPoll(w, ScanKnown(cfg, Scan(w.db, w.past), order, infos), w.db.lastBlock, out) else w
    case AddAccount(a) => w.(db := w.db.(accounts := w.db.accounts + {a}))
    case Mine(b) => w.(chain := w.chain + [b])
    case Crash => w.(proc := Down)
    case Restart => if w.proc.Down? && w.db.lock.None? then w.(proc := Idle) else w
  }

  // ------------------------------------------- what the environment guarantees

  predicate FreshId(w: World, id: TxId) {
    id != NIL_ID && id !in w.db.txs
  }

  predicate FreshHash(w: World, h: string) {
    && h != ""
    && (forall i :: i in w.db.txs ==> w.db.txs[i].hash != h)
    && forall k :: 0 <= k < |w.sent| ==> w.sent[k].hash != h
  }

  /** Block i is at or below the last seen block. */
  ghost predicate Covered(chain: seq<Block>, lastBlock: string, i: nat) {
    exists j :: i <= j < |chain| && chain[j].hash == lastBlock
  }

  predicate BlockOk(b: Block) {
    b.hash != "" && forall o :: o in b.outputs ==> o.entry.hash != ""
  }

  function EntryOf(n: NodeTx): Entry {
    Entry(n.hash, n.direction, n.address)
  }

  function OutputOf(n: NodeTx): Output {
    Output(EntryOf(n), n.vout, n.amount)
  }

  predicate Lists(entries: seq<NodeTx>, o: Output) {
    exists n :: 0 <= n < |entries| && OutputOf(entries[n]) == o
  }

  /** A hash stands for one transaction: what was listed with the hash of a mined
      transaction is one of its outputs in that block. */
  ghost predicate Fits(listed: seq<NodeTx>, b: Block) {
    forall n, o :: 0 <= n < |listed| && o in b.outputs && o.entry.hash == listed[n].hash ==>
      OutputOf(listed[n]) in b.outputs
  }

  /** No transaction is in both blocks. */
  ghost predicate Disjoint(b: Block, c: Block) {
    forall o, p :: o in b.outputs && p in c.outputs ==> o.entry.hash != p.entry.hash
  }

  /** listsinceblock: everything above the last seen block, the current tip, and
      as outgoing entries only what was sent through this wallet. */
  ghost predicate ListingOk(w: World, entries: seq<NodeTx>, lastBlock: string, ids: seq<TxId>) {
    && (forall n :: 0 <= n < |entries| ==>
          && entries[n].hash != ""
          && (entries[n].direction.Outgoing? ==>
                exists k :: 0 <= k < |w.sent|
                  && w.sent[k].hash == entries[n].hash && w.sent[k].address == entries[n].address))
    && (forall i, o :: 0 <= i < |w.chain| && o in w.chain[i].outputs && !Covered(w.chain, w.db.lastBlock, i) ==>
          Lists(entries, o))
    && (forall i :: 0 <= i < |w.chain| ==> Fits(entries, w.chain[i]))
    && lastBlock == (if w.chain == [] then "" else w.chain[|w.chain| - 1].hash)
    && |ids| == |entries|
    && (forall n :: 0 <= n < |ids| ==> FreshId(w, ids[n]))
    && forall m, n :: 0 <= m < n < |ids| ==> ids[m] != ids[n]
  }

  /** The rows of GetBroadcastedTransactionsWithLessConfirmations. */
  function LessConfirmed(cfg: Config, txs: map<TxId, Tx>): set<TxId> {
    set i | i in txs && txs[i].confirmations < cfg.maxConfirmations && txs[i].hash != ""
  }

  ghost predicate RefreshOk(cfg: Config, w: World, order: seq<TxId>, infos: map<string, Info>) {
    && (forall i :: i in order <==> i in LessConfirmed(cfg, w.db.txs))
    && (forall m, n :: 0 <= m < n < |order| ==> order[m] != order[n])
    && forall i :: i in LessConfirmed(cfg, w.db.txs) ==> w.db.txs[i].hash in infos
  }

  ghost predicate Legal(cfg: Config, w: World, a: Action) {
    match a
    case Withdraw(r, _, _, newId) => r.id != NIL_ID && FreshId(w, newId) && newId != r.id
    case Confirm(_, _, newId) => FreshId(w, newId)
    case Resend(_, _, newId) => FreshId(w, newId)
    case NodeReplies(r) => r.Accepted? ==> FreshHash(w, r.hash)
    case PollNew(entries, lastBlock, ids, _) => ListingOk(w, entries, lastBlock, ids)
    case PollKnown(order, infos, _) => RefreshOk(cfg, w, order, infos)
    case Mine(b) =>
      && BlockOk(b)
      && Fits(w.listed, b)
      && forall j :: 0 <= j < |w.chain| ==> w.chain[j].hash != b.hash && Disjoint(w.chain[j], b)
    case _ => true
  }

  ghost function Run(cfg: Config, w: World, actions: seq<Action>): World {
    if actions == [] then w
    else Next(cfg, Run(cfg, w, actions[..|actions| - 1]), actions[|actions| - 1])
  }

  ghost predicate LegalRun(cfg: Config, w: World, actions: seq<Action>) {
    actions != [] ==>
      && LegalRun(cfg, w, actions[..|actions| - 1])
      && Legal(cfg, Run(cfg, w, actions[..|actions| - 1]), actions[|actions| - 1])
  }
}
