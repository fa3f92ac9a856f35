/** What the wallet machine says about the calls of the updater loop: when a call may be
    made, and which step of the machine it then is. */
module WalletCalls {
  import opened Types
  import opened Ledger
  import opened LedgerInvariant
  import opened LedgerSteps
  import opened WalletMachine
  import opened WalletInvariant
  import opened WalletSteps
  import opened WalletTheorems

  /** At most one row answers a lookup by hash, direction and address. */
  ghost predicate OneMatch(txs: map<TxId, Tx>, t: Tx) {
    t.hash != "" ==> forall i, j :: i in txs && j in txs && SameKey(txs[i], t) && SameKey(txs[j], t) ==> i == j
  }

  /** The database once notifyTransaction has reported every number below i. */
  function ReportedBelow(cfg: Config, db: Db, t: Tx, i: int): Db
    requires i > t.reported
  {
    if i == t.reported + 1 then db
    else db.(events := db.events + Reports(cfg, t, t.reported + 1, i - 1), txs := SetReported(db.txs, t.id, i - 1))
  }

  lemma ReportOneMore(cfg: Config, db: Db, t: Tx, i: int)
    requires i > t.reported
    ensures var now := ReportedBelow(cfg, db, t, i);
      ReportedBelow(cfg, db, t, i + 1)
      == now.(events := now.events + [Report(cfg, t, i)], txs := SetReported(now.txs, t.id, i))
  {
    if i == t.reported + 1 {
      assert Reports(cfg, t, i, i - 1) == [];
    } else {
      hide Report;
      assert Reports(cfg, t, t.reported + 1, i) == Reports(cfg, t, t.reported + 1, i - 1) + [Report(cfg, t, i)];
      assert SetReported(SetReported(db.txs, t.id, i - 1), t.id, i) == SetReported(db.txs, t.id, i);
    }
  }

  lemma UniqueGivesOneMatch(txs: map<TxId, Tx>, t: Tx)
    requires UniqueKeys(txs)
    ensures OneMatch(txs, t)
  {
    forall i, j | t.hash != "" && i in txs && j in txs && SameKey(txs[i], t) && SameKey(txs[j], t)
      ensures i == j
    {
      assert SameKey(txs[i], txs[j]);
    }
  }

  lemma TakeInStored(cfg: Config, s: Scan, t: Tx, newId: TxId)
    requires s.Scan? && TakeIn(cfg, s, t, newId).Scan?
    ensures var r := UpdateTxInfo(cfg, s.db, t, newId);
      r.Stored? && TakeIn(cfg, s, t, newId) == Scan(r.db, s.past.(polled := s.past.polled + [Poll(r.tx.id, t.confirmations)]))
  {
    hide UpdateTxInfo;
  }

  lemma TakeInIs(cfg: Config, s: Scan, t: Tx, newId: TxId, db: Db, r: Tx)
    requires s.Scan? && UpdateTxInfo(cfg, s.db, t, newId) == Stored(db, r)
    ensures TakeIn(cfg, s, t, newId) == Scan(db, s.past.(polled := s.past.polled + [Poll(r.id, t.confirmations)]))
  {
  }

  lemma SameLength(s: Scan, entries: seq<NodeTx>, ids: seq<TxId>)
    requires EntriesOk(s, entries, ids)
    ensures |entries| == |ids|
  {
  }

  lemma ScanUnique(cfg: Config, s: Scan, p: Scan)
    requires ScanOk(cfg, s, p)
    ensures p.Scan? && UniqueKeys(p.db.txs)
  {
  }

  /** The next entry of a listing can be taken in. */
  lemma ScanNewAt(cfg: Config, s: Scan, entries: seq<NodeTx>, ids: seq<TxId>, n: nat)
    requires s.Scan? && DbOk(cfg, s.db, s.past) && EntriesOk(s, entries, ids) && n < |entries| == |ids|
    ensures var p, t := ScanNew(cfg, s, entries[..n], ids[..n]), FromNode(entries[n]);
      && p.Scan?
      && OneMatch(p.db.txs, t)
      && UpdateTxInfo(cfg, p.db, t, ids[n]).Stored?
      && ScanNew(cfg, s, entries[..n + 1], ids[..n + 1]) == TakeIn(cfg, p, t, ids[n])
  {
    hide TakenIn, UpdateTxInfo, ScanOk, DbOk, TakeIn, EntriesOk, FromNode;
    EntriesPrefix(s, entries, ids, n);
    EntriesPrefix(s, entries, ids, n + 1);
    ScanNewKeeps(cfg, s, entries[..n], ids[..n]);
    ScanNewKeeps(cfg, s, entries[..n + 1], ids[..n + 1]);
    assert entries[..n + 1][..n] == entries[..n] && ids[..n + 1][..n] == ids[..n];
    var p := ScanNew(cfg, s, entries[..n], ids[..n]);
    ScanUnique(cfg, s, p);
    ScanUnique(cfg, s, ScanNew(cfg, s, entries[..n + 1], ids[..n + 1]));
    UniqueGivesOneMatch(p.db.txs, FromNode(entries[n]));
    TakeInStored(cfg, p, FromNode(entries[n]), ids[n]);
  }

  /** The rows not reached yet are as they were read. */
  lemma {:induction false} ScanKnownAt(cfg: Config, s: Scan, order: seq<TxId>, infos: map<string, Info>, n: nat)
    requires s.Scan? && DbOk(cfg, s.db, s.past) && n < |order|
    requires forall k :: 0 <= k < |order| ==>
               order[k] in s.db.txs && s.db.txs[order[k]].hash != "" && s.db.txs[order[k]].hash in infos
    requires forall j, k :: 0 <= j < k < |order| ==> order[j] != order[k]
    ensures var p, t := ScanKnown(cfg, s, order[..n], infos), Refreshed(s.db.txs[order[n]], infos);
      && p.Scan? && order[n] in p.db.txs && p.db.txs[order[n]] == s.db.txs[order[n]]
      && OneMatch(p.db.txs, t)
      && UpdateTxInfo(cfg, p.db, t, NIL_ID).Stored?
      && ScanKnown(cfg, s, order[..n + 1], infos) == TakeIn(cfg, p, t, NIL_ID)
  {
    hide UpdateTxInfo, DbOk;
    ScanKnownUntouched(cfg, s, order, infos, n, order[n]);
    ScanKnownKeeps(cfg, s, order[..n], infos);
    ScanKnownKeeps(cfg, s, order[..n + 1], infos);
    assert order[..n + 1][..n] == order[..n];
    DbUnique(cfg, ScanKnown(cfg, s, order[..n], infos).db, ScanKnown(cfg, s, order[..n], infos).past);
    UniqueGivesOneMatch(ScanKnown(cfg, s, order[..n], infos).db.txs, Refreshed(s.db.txs[order[n]], infos));
  }

  lemma DbUnique(cfg: Config, db: Db, past: Past)
    requires DbOk(cfg, db, past)
    ensures UniqueKeys(db.txs)
  {
  }

  lemma {:induction false} ScanKnownUntouched(
    cfg: Config, s: Scan, order: seq<TxId>, infos: map<string, Info>, n: nat, id: TxId)
    requires s.Scan? && DbOk(cfg, s.db, s.past) && n <= |order|
    requires forall k :: 0 <= k < |order| ==>
               order[k] in s.db.txs && s.db.txs[order[k]].hash != "" && s.db.txs[order[k]].hash in infos
    requires id in s.db.txs && id !in order[..n]
    ensures var p := ScanKnown(cfg, s, order[..n], infos); p.Scan? && id in p.db.txs && p.db.txs[id] == s.db.txs[id]
    decreases n
  {
    hide DbOk, Frame, TakeIn;
    if n > 0 {
      assert order[..n][..n - 1] == order[..n - 1];
      ScanKnownUntouched(cfg, s, order, infos, n - 1, id);
      ScanKnownKeeps(cfg, s, order[..n - 1], infos);
      var p := ScanKnown(cfg, s, order[..n - 1], infos);
      RefreshedKey(cfg, s, p, order[n - 1], infos);
      TakeInKnown(cfg, p, Refreshed(p.db.txs[order[n - 1]], infos), NIL_ID, order[n - 1]);
    }
  }

  lemma RefreshedKey(cfg: Config, s: Scan, p: Scan, i: TxId, infos: map<string, Info>)
    requires s.Scan? && ScanOk(cfg, s, p) && i in s.db.txs && s.db.txs[i].hash != "" && s.db.txs[i].hash in infos
    ensures i in p.db.txs && p.db.txs[i].hash == s.db.txs[i].hash
    ensures p.db.txs[i].id == i && !Waiting(p.db.txs[i].status)
    ensures SameKey(p.db.txs[i], Refreshed(p.db.txs[i], infos))
  {
    assert RowStep(s.db.txs[i], p.db.txs[i]);
    assert RowOk(cfg, i, p.db.txs[i]);
  }

  // ------------------------------------------------- what the machine says of a call

  lemma PollNewStart(cfg: Config, w: World, entries: seq<NodeTx>, lastBlock: string, ids: seq<TxId>)
    requires Inv(cfg, w) && w.proc.Idle? && ListingOk(w, entries, lastBlock, ids)
    ensures DbOk(cfg, w.db, w.past) && EntriesOk(Scan(w.db, w.past), entries, ids)
  {
    ListingEntries(cfg, w, entries, lastBlock, ids);
  }

  lemma PollNewIs(cfg: Config, w: World, entries: seq<NodeTx>, lastBlock: string, ids: seq<TxId>, out: Commit, s: Scan)
    requires Inv(cfg, w) && w.proc.Idle? && ListingOk(w, entries, lastBlock, ids) && |ids| == |entries|
    requires !out.Dropped? ==> s.Scan? && ScanNew(cfg, Scan(w.db, w.past), entries, ids) == s
    ensures var w' := Next(cfg, w, PollNew(entries, lastBlock, ids, out));
      && w' == (if out.Dropped? then w
                else w.(db := s.db.(lastBlock := lastBlock), past := s.past, listed := w.listed + entries))
      && Inv(cfg, w')
  {
    hide Inv, ScanNew, ListingOk;
    var w' := Next(cfg, w, PollNew(entries, lastBlock, ids, out));
    StepKeeps(cfg, w, PollNew(entries, lastBlock, ids, out));
    NoPanic(cfg, w');
    assert w' == DoPollNew(w, ScanNew(cfg, Scan(w.db, w.past), entries, ids), entries, lastBlock, out);
  }

  lemma NoPanic(cfg: Config, w: World)
    requires Inv(cfg, w)
    ensures !w.panicked
  {
  }

  lemma PollKnownStart(cfg: Config, w: World, order: seq<TxId>, infos: map<string, Info>)
    requires Inv(cfg, w) && w.proc.Idle? && RefreshOk(cfg, w, order, infos)
    ensures DbOk(cfg, w.db, w.past)
    ensures forall k :: 0 <= k < |order| ==>
              order[k] in w.db.txs && w.db.txs[order[k]].hash != "" && w.db.txs[order[k]].hash in infos
    ensures forall j, k :: 0 <= j < k < |order| ==> order[j] != order[k]
  {
    forall k | 0 <= k < |order|
      ensures order[k] in w.db.txs && w.db.txs[order[k]].hash != "" && w.db.txs[order[k]].hash in infos
    {
      assert order[k] in LessConfirmed(cfg, w.db.txs);
    }
  }

  lemma PollKnownIs(cfg: Config, w: World, order: seq<TxId>, infos: map<string, Info>, out: Commit, s: Scan)
    requires Inv(cfg, w) && w.proc.Idle? && RefreshOk(cfg, w, order, infos)
    requires !out.Dropped? ==> s.Scan? && ScanKnown(cfg, Scan(w.db, w.past), order, infos) == s
    ensures var w' := Next(cfg, w, PollKnown(order, infos, out));
      && w' == (if out.Dropped? then w else w.(db := s.db.(lastBlock := w.db.lastBlock), past := s.past))
      && Inv(cfg, w')
  {
    hide Inv, ScanKnown, RefreshOk;
    var w' := Next(cfg, w, PollKnown(order, infos, out));
    StepKeeps(cfg, w, PollKnown(order, infos, out));
    NoPanic(cfg, w');
    assert w' == DoPoll(w, ScanKnown(cfg, Scan(w.db, w.past), order, infos), w.db.lastBlock, out);
  }

  /** A refresh does not touch the last seen block. */
  lemma ScanKnownBlock(cfg: Config, s: Scan, order: seq<TxId>, infos: map<string, Info>)
    requires s.Scan? && DbOk(cfg, s.db, s.past)
    requires forall k :: 0 <= k < |order| ==> order[k] in s.db.txs && s.db.txs[order[k]].hash != ""
    ensures var p := ScanKnown(cfg, s, order, infos); p.Scan? && p.db.lastBlock == s.db.lastBlock
  {
    ScanKnownKeeps(cfg, s, order, infos);
  }

  predicate Cancellable(txs: map<TxId, Tx>, id: TxId) {
    id in txs && (Scheduled(txs[id].status) || txs[id].status.PendingManual?)
  }

  lemma CancelStart(cfg: Config, w: World, id: TxId)
    requires Inv(cfg, w) && w.proc.Idle? && Cancellable(w.db.txs, id)
    ensures var t := w.db.txs[id];
      && t.hash == ""
      && UpdatePendingTxStatus(w.db, t, Cancelled).Stored?
      && UpdatePendingTxStatus(w.db, t, Cancelled).db.txs == w.db.txs[id := t.(status := Cancelled)]
  {
    StoredIsUnsent(cfg, w, id);
    PendingStatusShape(w.db, w.db.txs[id], Cancelled);
  }

  lemma CancelIs(cfg: Config, w: World, id: TxId, out: Commit)
    requires Inv(cfg, w) && w.proc.Idle?
    ensures var w' := Next(cfg, w, Cancel(id, out));
      && (!Cancellable(w.db.txs, id) || out.Dropped? ==> w' == w)
      && (Cancellable(w.db.txs, id) && !out.Dropped? ==>
            && UpdatePendingTxStatus(w.db, w.db.txs[id], Cancelled).Stored?
            && w' == w.(db := UpdatePendingTxStatus(w.db, w.db.txs[id], Cancelled).db))
      && Inv(cfg, w')
  {
    hide Inv, UpdatePendingTxStatus;
    if Cancellable(w.db.txs, id) {
      CancelStart(cfg, w, id);
    }
    assert Legal(cfg, w, Cancel(id, out));
    StepKeeps(cfg, w, Cancel(id, out));
    CancelNext(cfg, w, id, out);
    hide Next;
  }

  lemma CancelNext(cfg: Config, w: World, id: TxId, out: Commit)
    requires w.proc.Idle?
    ensures Next(cfg, w, Cancel(id, out)) == DoCancel(w, id, out)
  {
  }

  // ------------------------------------------------------- saving the outcome of a send

  lemma PersistSentStart(cfg: Config, w: World, t: Tx, tries: nat)
    requires Inv(cfg, w) && w.proc == Sent(t, tries)
    ensures OneMatch(w.db.txs, t) && Store(w.db, t, t.id).Stored? && SaveSent(cfg, w.db, t).Stored?
    ensures Top(cfg, t) == 0 && -1 <= t.reported <= 0 && (t.cold ==> t.reported == -1)
  {
    UniqueGivesOneMatch(w.db.txs, t);
    SaveSentShape(cfg, w.db, w.past, t);
  }

  lemma PersistSentIs(cfg: Config, w: World, t: Tx, tries: nat, a: Attempt)
    requires Inv(cfg, w) && w.proc == Sent(t, tries)
    ensures Next(cfg, w, Persist(a)) == DoPersistSent(cfg, w, t, tries, a)
    ensures Inv(cfg, Next(cfg, w, Persist(a)))
  {
    hide Inv, DoPersistSent;
    StepKeeps(cfg, w, Persist(a));
  }

  lemma PersistFailedStart(cfg: Config, w: World, t: Tx, makePending: bool, tries: nat)
    requires Inv(cfg, w) && w.proc == Failed(t, makePending, tries)
    ensures t.hash == ""
    ensures makePending ==> UpdatePendingTxStatus(w.db, t, Pending).Stored?
    ensures SaveFailed(w.db, t, makePending).Stored?
  {
    hide UpdatePendingTxStatus, DbOk, SentOk, HoldOk, ChainOk, Frame;
    SaveFailedKeeps(cfg, w, t, makePending, tries, Idle);
  }

  lemma PersistFailedIs(cfg: Config, w: World, t: Tx, makePending: bool, tries: nat, a: Attempt)
    requires Inv(cfg, w) && w.proc == Failed(t, makePending, tries)
    ensures Next(cfg, w, Persist(a)) == DoPersistFailed(w, t, makePending, tries, a)
    ensures Inv(cfg, Next(cfg, w, Persist(a)))
  {
    hide Inv, DoPersistFailed;
    StepKeeps(cfg, w, Persist(a));
  }

  // --------------------------------------------------------------- runs of the machine

  lemma {:induction false} RunAppend(cfg: Config, w: World, a: seq<Action>, b: seq<Action>)
    ensures Run(cfg, w, a + b) == Run(cfg, Run(cfg, w, a), b)
    ensures LegalRun(cfg, w, a + b) <==> LegalRun(cfg, w, a) && LegalRun(cfg, Run(cfg, w, a), b)
  {
    hide Next, Legal;
    if b == [] {
      assert a + b == a;
    } else {
      assert (a + b)[..|a + b| - 1] == a + b[..|b| - 1];
      RunAppend(cfg, w, a, b[..|b| - 1]);
    }
  }

  lemma RunOne(cfg: Config, w: World, a: Action)
    ensures Run(cfg, w, [a]) == Next(cfg, w, a)
    ensures LegalRun(cfg, w, [a]) <==> Legal(cfg, w, a)
  {
    hide Next, Legal;
    RunSnoc(cfg, w, [], a);
    assert [] + [a] == [a];
  }

  lemma PersistIsLegal(cfg: Config, w: World, a: Attempt)
    ensures Legal(cfg, w, Persist(a))
  {
  }

  // --------------------------------------------------------------------- dispatching

  /** A withdrawal that may be handed to sendWithdrawal. */
  ghost predicate Ready(cfg: Config, w: World, t: Tx, newId: TxId, reply: Reply) {
    && Inv(cfg, w) && w.proc.Idle? && UnsentRecord(cfg, w, t)
    && FreshId(w, newId) && newId != t.id
    && (reply.Accepted? ==> FreshHash(w, reply.hash))
  }

  lemma ReadyIs(cfg: Config, w: World, t: Tx, newId: TxId, reply: Reply)
    requires Ready(cfg, w, t, newId, reply)
    ensures Inv(cfg, w) && w.proc.Idle? && UnsentRecord(cfg, w, t) && FreshId(w, newId) && newId != t.id
  {
  }

  lemma TransferStart(cfg: Config, w: World, t: Tx, newId: TxId, reply: Reply)
    requires Ready(cfg, w, t, newId, reply) && EffectiveFee(t) <= t.amount
    ensures InternalTransfer(cfg, w.db, t, newId).Stored?
    ensures t.hash == ""
    ensures !t.cold ==> StoreAndNotify(cfg, w.db, TransferOut(cfg, t), t.id).Stored?
    ensures var db1 := if t.cold then w.db else StoreAndNotify(cfg, w.db, TransferOut(cfg, t), t.id).db;
      StoreAndNotify(cfg, db1, TransferIn(cfg, t), newId).Stored?
  {
    hide StoreAndNotify, DbOk, SentOk, HoldOk, ChainOk;
    TransferReady(cfg, w, t, newId);
    InternalTransferKeeps(cfg, w.db, w.past, t, newId);
  }

  lemma DispatchIs(cfg: Config, w: World, t: Tx, out: Commit, newId: TxId, reply: Reply)
    requires Ready(cfg, w, t, newId, reply)
    ensures Inv(cfg, Dispatch(cfg, w, t, out, newId))
  {
    hide Inv, UnsentRecord, Dispatch;
    DispatchKeeps(cfg, w, t, out, newId);
  }

  lemma DispatchDropped(cfg: Config, w: World, t: Tx, newId: TxId, reply: Reply)
    requires Ready(cfg, w, t, newId, reply)
    ensures Dispatch(cfg, w, t, Dropped, newId) == w
  {
    if EffectiveFee(t) <= t.amount {
      TransferStart(cfg, w, t, newId, reply);
    }
    hide Inv, InternalTransfer, UnsentRecord;
  }

  /** The state in which the outcome of the send is saved. */
  function Replied(t: Tx, reply: Reply): Process {
    match reply
    case Accepted(h) => Sent(t.(status := New, hash := h), SAVE_RETRIES)
    case Refused(insufficient) => Failed(t, insufficient && !t.cold, SAVE_RETRIES)
  }

  function SentAfter(sent: seq<Broadcast>, t: Tx, reply: Reply): seq<Broadcast> {
    if reply.Accepted? then sent + [BroadcastOf(t.(status := New, hash := reply.hash))] else sent
  }

  lemma ReplyIs(cfg: Config, w: World, t: Tx, reply: Reply)
    requires Inv(cfg, w) && w.proc == Locked(t) && (reply.Accepted? ==> FreshHash(w, reply.hash))
    ensures LegalRun(cfg, w, [NodeReplies(reply)])
    ensures Run(cfg, w, [NodeReplies(reply)]) == w.(sent := SentAfter(w.sent, t, reply), proc := Replied(t, reply))
    ensures Inv(cfg, w.(sent := SentAfter(w.sent, t, reply), proc := Replied(t, reply)))
  {
    hide Inv, Run, LegalRun, FreshHash;
    ReplyKeeps(cfg, w, t, reply);
    RunOne(cfg, w, NodeReplies(reply));
    assert Legal(cfg, w, NodeReplies(reply));
    assert DoReply(w, t, reply) == w.(sent := SentAfter(w.sent, t, reply), proc := Replied(t, reply));
  }

  ghost predicate Offered(w: World, id: TxId, newId: TxId, reply: Reply) {
    && w.proc.Idle? && FreshId(w, newId) && newId != id
    && (reply.Accepted? ==> FreshHash(w, reply.hash))
  }

  lemma AdmitKeepsId(cfg: Config, r: Request, toCold: bool)
    ensures Admit(cfg, r, toCold).Some? ==> Admit(cfg, r, toCold).value.0.id == r.id
  {
  }

  lemma AdmittedReady(cfg: Config, w: World, r: Request, toCold: bool, newId: TxId, reply: Reply)
    requires Inv(cfg, w) && r.id != NIL_ID && Offered(w, r.id, newId, reply)
    requires Admit(cfg, r, toCold).Some? && !Admit(cfg, r, toCold).value.1 && r.id !in w.db.txs
    ensures Ready(cfg, w, Admit(cfg, r, toCold).value.0, newId, reply)
  {
    hide DbOk, HoldOk, ChainOk, FreshHash;
    NotSentYet(w, r.id);
  }

  lemma HeldStart(cfg: Config, w: World, r: Request, toCold: bool)
    requires Inv(cfg, w) && r.id != NIL_ID && w.proc.Idle?
    requires Admit(cfg, r, toCold).Some? && Admit(cfg, r, toCold).value.1 && r.id !in w.db.txs
    ensures var t := Admit(cfg, r, toCold).value.0;
      t.hash == "" && UpdatePendingTxStatus(w.db, t, PendingManual).Stored?
  {
    hide DbOk, HoldOk, ChainOk, SentOk;
    PendingStatusShape(w.db, Admit(cfg, r, toCold).value.0, PendingManual);
  }

  /** A request and the steps that follow it are one run. */
  lemma WithdrawRun(cfg: Config, w: World, r: Request, toCold: bool, out: Commit, newId: TxId, trace: seq<Action>)
    requires Inv(cfg, w) && w.proc.Idle? && r.id != NIL_ID && FreshId(w, newId) && newId != r.id
    requires LegalRun(cfg, DoWithdraw(cfg, w, r, toCold, out, newId), trace)
    ensures var steps := [Withdraw(r, toCold, out, newId)] + trace;
      && LegalRun(cfg, w, steps)
      && Run(cfg, w, steps) == Run(cfg, DoWithdraw(cfg, w, r, toCold, out, newId), trace)
      && Inv(cfg, Run(cfg, w, steps))
  {
    hide Inv, Run, LegalRun, DoWithdraw;
    var a := Withdraw(r, toCold, out, newId);
    assert Legal(cfg, w, a);
    RunOne(cfg, w, a);
    RunAppend(cfg, w, [a], trace);
    RunKeeps(cfg, w, [a] + trace);
  }

  lemma ConfirmedReady(cfg: Config, w: World, id: TxId, newId: TxId, reply: Reply)
    requires Inv(cfg, w) && Offered(w, id, newId, reply) && id in w.db.txs && w.db.txs[id].status.PendingManual?
    ensures Ready(cfg, w.(confirmed := w.confirmed + {id}), w.db.txs[id], newId, reply)
  {
    ConfirmReady(cfg, w, id);
    StoredIsUnsent(cfg, w, id);
  }

  lemma ConfirmRun(cfg: Config, w: World, id: TxId, out: Commit, newId: TxId, trace: seq<Action>)
    requires Inv(cfg, w) && w.proc.Idle? && FreshId(w, newId)
    requires LegalRun(cfg, DoConfirm(cfg, w, id, out, newId), trace)
    ensures var steps := [Confirm(id, out, newId)] + trace;
      && LegalRun(cfg, w, steps)
      && Run(cfg, w, steps) == Run(cfg, DoConfirm(cfg, w, id, out, newId), trace)
      && Inv(cfg, Run(cfg, w, steps))
  {
    hide Inv, Run, LegalRun, DoConfirm;
    var a := Confirm(id, out, newId);
    assert Legal(cfg, w, a);
    RunOne(cfg, w, a);
    RunAppend(cfg, w, [a], trace);
    RunKeeps(cfg, w, [a] + trace);
  }
}
