/** Every step of the wallet machine keeps its invariant. */
module WalletSteps {
  import opened Types
  import opened Ledger
  import opened LedgerInvariant
  import opened LedgerSteps
  import opened WalletMachine
  import opened WalletInvariant

  lemma DbFacts(cfg: Config, db: Db, past: Past)
    requires DbOk(cfg, db, past)
    ensures cfg.maxConfirmations >= 1 && RowsOk(cfg, db.txs) && NIL_ID !in db.txs
  {
  }

  /** A database transaction from Idle that stays inside the frame of `actor`. */
  lemma TransactKeeps(cfg: Config, w: World, r: StoreResult, out: Commit, actor: TxId)
    requires Inv(cfg, w) && w.proc.Idle?
    requires r.Stored? && DbOk(cfg, r.db, w.past) && Frame(w.db.txs, r.db.txs, actor)
    requires r.db.lock == w.db.lock && r.db.lastBlock == w.db.lastBlock
    requires actor in r.db.txs ==>
               && (Released(r.db.txs[actor]) ==> Gate(cfg, w.confirmed, actor, r.db.txs[actor].amount, r.db.txs[actor].cold))
               && (NeverSent(r.db.txs[actor]) ==> !InSent(w.sent, actor))
               && r.db.txs[actor].hash == ""
    ensures Inv(cfg, Transact(w, r, out))
    ensures Grows(w.db.txs, Transact(w, r, out).db.txs)
  {
    hide DbOk, SentOk, HoldOk, ChainOk, Frame, Grows;
    var w' := w.(db := r.db);
    GrowsSame(w.db.txs);
    FrameGrows(w.db.txs, r.db.txs, actor);
    FrameKeepsSent(w, w', actor);
    FrameKeepsHold(cfg, w, w', actor);
    FrameKeepsChain(w, w', actor);
  }

  /** What the node has listed and what was transferred is history only. */
  lemma SameButHistory(cfg: Config, w: World, listed: seq<NodeTx>, moved: seq<Move>)
    requires Inv(cfg, w)
    ensures Inv(cfg, w.(listed := listed, moved := moved))
  {
    hide DbOk, DistinctSent, Recorded, Gate, SentRecord, Unsent, RowMatches, Known, Covered, BlockOk;
  }

  lemma TransferRow(cfg: Config, txs: map<TxId, Tx>, past: Past, t: Tx, newId: TxId)
    requires RowsOk(cfg, txs) && Transferable(cfg, txs, past, t, newId)
    ensures var txs' := TransferTable(cfg, txs, t, newId);
            t.id in txs' ==>
              && txs'[t.id].amount == t.amount && txs'[t.id].cold == t.cold
              && txs'[t.id].hash == "" && !NeverSent(txs'[t.id])
  {
    assert t.id in txs ==> RowOk(cfg, t.id, txs[t.id]);
  }

  lemma TransferReady(cfg: Config, w: World, t: Tx, newId: TxId)
    requires SentOk(w) && w.proc.Idle? && UnsentRecord(cfg, w, t)
    requires FreshId(w, newId) && newId != t.id && EffectiveFee(t) <= t.amount
    ensures Transferable(cfg, w.db.txs, w.past, t, newId)
  {
    NotSentYet(w, newId);
    assert t.id in w.past.lost + w.past.delayed ==> InSent(w.sent, t.id);
  }

  lemma TransferKeeps(cfg: Config, w: World, t: Tx, out: Commit, newId: TxId)
    requires Inv(cfg, w) && w.proc.Idle? && UnsentRecord(cfg, w, t)
    requires FreshId(w, newId) && newId != t.id && EffectiveFee(t) <= t.amount
    ensures Inv(cfg, Transfer(w, t, InternalTransfer(cfg, w.db, t, newId), out))
    ensures Grows(w.db.txs, Transfer(w, t, InternalTransfer(cfg, w.db, t, newId), out).db.txs)
  {
    TransferReady(cfg, w, t, newId);
    InternalTransferKeeps(cfg, w.db, w.past, t, newId);
    TransferFrame(cfg, w.db.txs, w.past, t, newId);
    TransferRow(cfg, w.db.txs, w.past, t, newId);
    TransactKeeps(cfg, w, InternalTransfer(cfg, w.db, t, newId), out, t.id);
    SameButHistory(cfg, Transact(w, InternalTransfer(cfg, w.db, t, newId), out), w.listed, w.moved + [Move(t.id, t.cold)]);
  }

  /** sendWithdrawal, for a withdrawal that has not been broadcast and is past the gate. */
  lemma DispatchKeeps(cfg: Config, w: World, t: Tx, out: Commit, newId: TxId)
    requires Inv(cfg, w) && w.proc.Idle? && UnsentRecord(cfg, w, t)
    requires FreshId(w, newId) && newId != t.id
    ensures Inv(cfg, Dispatch(cfg, w, t, out, newId))
    ensures Grows(w.db.txs, Dispatch(cfg, w, t, out, newId).db.txs)
  {
    hide Inv, UnsentRecord, InternalTransfer, Grows, FreshId, EffectiveFee;
    GrowsSame(w.db.txs);
    if t.address in w.db.accounts {
      if EffectiveFee(t) <= t.amount {
        TransferKeeps(cfg, w, t, out, newId);
      }
    } else {
      LockKeeps(cfg, w, t, out);
    }
  }

  lemma LockKeeps(cfg: Config, w: World, t: Tx, out: Commit)
    requires Inv(cfg, w) && w.proc.Idle? && UnsentRecord(cfg, w, t)
    ensures Inv(cfg, w.(db := w.db.(lock := Some(t)), proc := if out.Committed? then Locked(t) else Idle))
  {
    hide DbOk, SentOk, HoldOk, ChainOk, Frame, Grows;
    var w' := w.(db := w.db.(lock := Some(t)), proc := if out.Committed? then Locked(t) else Idle);
    DbOkSameTables(cfg, w.db, w'.db, w.past);
    DbFacts(cfg, w.db, w.past);
    FrameSame(w.db.txs, NIL_ID);
    FrameKeepsSent(w, w', NIL_ID);
    FrameKeepsHold(cfg, w, w', NIL_ID);
    FrameKeepsChain(w, w', NIL_ID);
  }

  /** Holding, cancelling or rescheduling needs no confirm request. */
  lemma HoldKeeps(cfg: Config, w: World, t: Tx, s: Status, out: Commit)
    requires Inv(cfg, w) && w.proc.Idle?
    requires Unsent(cfg, t) && !t.cold && Waiting(s) && RowMatches(w.db.txs, t)
    requires t.status != s
    requires s.PendingManual? || s.Cancelled?
    ensures Inv(cfg, Transact(w, UpdatePendingTxStatus(w.db, t, s), out))
    ensures Grows(w.db.txs, Transact(w, UpdatePendingTxStatus(w.db, t, s), out).db.txs)
  {
    NotSentYet(w, t.id);
    PendingStatusKeeps(cfg, w.db, w.past, t, s);
    FrameRow(w.db.txs, t.id, t.(status := s), t.id);
    TransactKeeps(cfg, w, UpdatePendingTxStatus(w.db, t, s), out, t.id);
  }

  lemma WithdrawKeeps(cfg: Config, w: World, r: Request, toCold: bool, out: Commit, newId: TxId)
    requires Inv(cfg, w) && w.proc.Idle?
    requires r.id != NIL_ID && FreshId(w, newId) && newId != r.id
    ensures Inv(cfg, DoWithdraw(cfg, w, r, toCold, out, newId))
    ensures Grows(w.db.txs, DoWithdraw(cfg, w, r, toCold, out, newId).db.txs)
  {
    hide DbOk, HoldOk, ChainOk, Grows, Dispatch, UpdatePendingTxStatus;
    GrowsSame(w.db.txs);
    var admitted := Admit(cfg, r, toCold);
    if admitted.Some? && admitted.value.0.id !in w.db.txs {
      var t := admitted.value.0;
      if admitted.value.1 {
        HoldKeeps(cfg, w, t, PendingManual, out);
      } else {
        NotSentYet(w, t.id);
        DispatchKeeps(cfg, w, t, out, newId);
      }
    }
  }

  lemma StoredIsUnsent(cfg: Config, w: World, id: TxId)
    requires Inv(cfg, w) && w.proc.Idle?
    requires id in w.db.txs && Waiting(w.db.txs[id].status) && !w.db.txs[id].status.Cancelled?
    ensures Unsent(cfg, w.db.txs[id]) && RowMatches(w.db.txs, w.db.txs[id]) && !w.db.txs[id].cold
    ensures !InSent(w.sent, id) && w.db.txs[id].id == id
  {
    assert RowOk(cfg, id, w.db.txs[id]);
    NotSentYet(w, id);
  }

  lemma ConfirmReady(cfg: Config, w: World, id: TxId)
    requires Inv(cfg, w) && w.proc.Idle? && id in w.db.txs && w.db.txs[id].status.PendingManual?
    ensures Inv(cfg, w.(confirmed := w.confirmed + {id}))
    ensures UnsentRecord(cfg, w.(confirmed := w.confirmed + {id}), w.db.txs[id])
  {
    hide DbOk, HoldOk, Frame;
    var w1 := w.(confirmed := w.confirmed + {id});
    StoredIsUnsent(cfg, w, id);
    DbFacts(cfg, w.db, w.past);
    FrameSame(w.db.txs, NIL_ID);
    FrameKeepsHold(cfg, w, w1, NIL_ID);
  }

  lemma ConfirmKeeps(cfg: Config, w: World, id: TxId, out: Commit, newId: TxId)
    requires Inv(cfg, w) && w.proc.Idle? && FreshId(w, newId)
    ensures Inv(cfg, DoConfirm(cfg, w, id, out, newId))
    ensures Grows(w.db.txs, DoConfirm(cfg, w, id, out, newId).db.txs)
  {
    hide Inv, Dispatch, Grows, Unsent, RowMatches;
    GrowsSame(w.db.txs);
    if id in w.db.txs && w.db.txs[id].status.PendingManual? {
      ConfirmReady(cfg, w, id);
      StoredIsUnsent(cfg, w, id);
      DispatchKeeps(cfg, w.(confirmed := w.confirmed + {id}), w.db.txs[id], out, newId);
    }
  }

  lemma ResendReady(cfg: Config, w: World, id: TxId)
    requires Inv(cfg, w) && w.proc.Idle? && id in w.db.txs && Scheduled(w.db.txs[id].status)
    ensures UnsentRecord(cfg, w, w.db.txs[id])
  {
    hide DbOk;
    StoredIsUnsent(cfg, w, id);
  }

  lemma ResendKeeps(cfg: Config, w: World, id: TxId, out: Commit, newId: TxId)
    requires Inv(cfg, w) && w.proc.Idle? && FreshId(w, newId)
    ensures Inv(cfg, DoResend(cfg, w, id, out, newId))
    ensures Grows(w.db.txs, DoResend(cfg, w, id, out, newId).db.txs)
  {
    hide Inv, Dispatch, Grows, Unsent, RowMatches, UnsentRecord;
    GrowsSame(w.db.txs);
    if id in w.db.txs && Scheduled(w.db.txs[id].status) {
      ResendReady(cfg, w, id);
      StoredIsUnsent(cfg, w, id);
      DispatchKeeps(cfg, w, w.db.txs[id], out, newId);
    }
  }

  lemma CancelKeeps(cfg: Config, w: World, id: TxId, out: Commit)
    requires Inv(cfg, w) && w.proc.Idle?
    ensures Inv(cfg, DoCancel(w, id, out))
    ensures Grows(w.db.txs, DoCancel(w, id, out).db.txs)
  {
    hide Inv, Unsent, RowMatches, UpdatePendingTxStatus, Grows;
    GrowsSame(w.db.txs);
    if id in w.db.txs && (Scheduled(w.db.txs[id].status) || w.db.txs[id].status.PendingManual?) {
      StoredIsUnsent(cfg, w, id);
      HoldKeeps(cfg, w, w.db.txs[id], Cancelled, out);
    }
  }

  lemma {:induction false} MarkAllKeeps(cfg: Config, db: Db, past: Past, marks: seq<Mark>)
    requires DbOk(cfg, db, past)
    ensures var r := MarkAll(db, marks);
            && r.Stored? && DbOk(cfg, r.db, past) && Frame(db.txs, r.db.txs, NIL_ID)
            && r.db.(txs := db.txs, events := db.events) == db
  {
    hide DbOk, Frame, UpdatePendingTxStatus;
    if marks == [] {
      FrameSame(db.txs, NIL_ID);
    } else {
      var m := marks[|marks| - 1];
      var r := MarkAll(db, marks[..|marks| - 1]);
      MarkAllKeeps(cfg, db, past, marks[..|marks| - 1]);
      if m.id in r.db.txs && Scheduled(r.db.txs[m.id].status) && Scheduled(m.status) {
        MarkOneKeeps(cfg, r.db, past, m.id, m.status);
        FrameTrans(db.txs, r.db.txs, MarkAll(db, marks).db.txs, NIL_ID);
      }
    }
  }

  lemma MarkOneKeeps(cfg: Config, db: Db, past: Past, id: TxId, s: Status)
    requires DbOk(cfg, db, past) && id in db.txs && Scheduled(db.txs[id].status) && Scheduled(s)
    ensures var r := UpdatePendingTxStatus(db, db.txs[id], s);
            && r.Stored? && DbOk(cfg, r.db, past) && Frame(db.txs, r.db.txs, NIL_ID)
            && r.db.(txs := db.txs, events := db.events) == db
  {
    var t := db.txs[id];
    assert RowOk(cfg, id, t);
    PendingStatusKeeps(cfg, db, past, t, s);
    FrameRow(db.txs, id, t.(status := s), NIL_ID);
  }

  lemma MarkKeeps(cfg: Config, w: World, marks: seq<Mark>, need: nat, out: Commit)
    requires Inv(cfg, w) && w.proc.Idle?
    ensures Inv(cfg, DoMark(w, marks, need, out))
    ensures Grows(w.db.txs, DoMark(w, marks, need, out).db.txs)
  {
    hide DbOk, SentOk, HoldOk, ChainOk, Frame, Grows, MarkAll;
    MarkAllKeeps(cfg, w.db, w.past, marks);
    var r := MarkAll(w.db, marks);
    var r' := Stored(r.db.(coldNeed := need), r.tx);
    DbOkSameTables(cfg, r.db, r'.db, w.past);
    DbFacts(cfg, r'.db, w.past);
    TransactKeeps(cfg, w, r', out, NIL_ID);
  }

  // ------------------------------------------------- the node and persisting

  lemma AcceptedRecord(cfg: Config, w: World, t: Tx, h: string)
    requires Inv(cfg, w) && w.proc == Locked(t) && FreshHash(w, h)
    ensures SentRecord(cfg, w.db.txs, w.past, t.(status := New, hash := h))
  {
    NotSentYet(w, t.id);
    assert t.id in w.db.txs ==> RowOk(cfg, t.id, w.db.txs[t.id]);
  }

  lemma InSentSnoc(sent: seq<Broadcast>, b: Broadcast, i: TxId)
    ensures InSent(sent + [b], i) <==> InSent(sent, i) || b.id == i
  {
    var sent' := sent + [b];
    assert sent'[|sent|] == b;
    if k :| 0 <= k < |sent| && sent[k].id == i {
      assert sent'[k].id == i;
    }
  }

  lemma AcceptedDistinct(cfg: Config, w: World, t: Tx, h: string)
    requires DistinctSent(w.sent) && !InSent(w.sent, t.id) && FreshHash(w, h)
    ensures DistinctSent(w.sent + [BroadcastOf(t.(hash := h))])
  {
  }

  lemma AcceptedSent(cfg: Config, w: World, t: Tx, h: string)
    requires Inv(cfg, w) && w.proc == Locked(t) && FreshHash(w, h)
    ensures SentOk(DoReply(w, t, Accepted(h))) && HoldOk(cfg, DoReply(w, t, Accepted(h)))
  {
    var w' := DoReply(w, t, Accepted(h));
    AcceptedDistinct(cfg, w, t, h);
    forall i ensures InSent(w'.sent, i) <==> InSent(w.sent, i) || t.id == i {
      InSentSnoc(w.sent, BroadcastOf(t.(hash := h)), i);
    }
  }

  lemma ReplyKeeps(cfg: Config, w: World, t: Tx, r: Reply)
    requires Inv(cfg, w) && w.proc == Locked(t)
    requires r.Accepted? ==> FreshHash(w, r.hash)
    ensures Inv(cfg, DoReply(w, t, r))
  {
    if r.Accepted? {
      AcceptedRecord(cfg, w, t, r.hash);
      AcceptedSent(cfg, w, t, r.hash);
    }
  }

  /** Installing the record of a broadcast withdrawal settles it. */
  lemma SaveKeeps(cfg: Config, w: World, proc': Process)
    requires Inv(cfg, w) && w.proc.Sent?
    requires proc'.Idle? || proc'.Down? ||
             (proc'.Sent? && proc'.tx == AfterNotify(cfg, w.proc.tx))
    ensures var r := SaveSent(cfg, w.db, w.proc.tx);
            && r.Stored? && r.tx == AfterNotify(cfg, w.proc.tx)
            && Inv(cfg, w.(db := r.db, proc := proc')) && Grows(w.db.txs, r.db.txs)
  {
    hide DbOk, SentOk, ChainOk, Frame, Grows, SaveSent, RowsOk;
    var t := w.proc.tx;
    DbFacts(cfg, w.db, w.past);
    SaveSentShape(cfg, w.db, w.past, t);
    SaveSentKeeps(cfg, w.db, w.past, t);
    SavedRecord(cfg, w.db.txs, w.past, t);
    var w' := w.(db := SaveSent(cfg, w.db, t).db, proc := proc');
    var last := |w.sent| - 1;
    assert Recorded(w'.db.txs, w.sent[last]);
    assert InSent(w.sent, t.id) by { assert w.sent[last].id == t.id; }
    FrameGrows(w.db.txs, w'.db.txs, t.id);
    FrameKeepsSent(w, w', t.id);
    FrameKeepsHold(cfg, w, w', t.id);
    FrameKeepsChain(w, w', t.id);
  }

  /** A dropped attempt changes the record in hand and the history, not the database. */
  lemma SwallowDb(cfg: Config, db: Db, past: Past, t: Tx)
    requires DbOk(cfg, db, past) && (t.id in db.txs ==> t.cold || t.reported == 0 || db.txs[t.id].hash == "")
    ensures DbOk(cfg, db, Swallow(past, db.txs, t))
  {
    var past' := Swallow(past, db.txs, t);
    assert forall i :: i in db.txs ==> Base(past', i) == Base(past, i);
    assert forall i :: i in db.txs && db.txs[i].hash != "" ==> Start(past', db.txs[i]) == Start(past, db.txs[i]) by {
      assert forall i :: i in db.txs ==> RowOk(cfg, i, db.txs[i]);
    }
  }

  lemma SwallowSent(w: World, t: Tx)
    requires SentOk(w) && InSent(w.sent, t.id)
    ensures SentOk(w.(past := Swallow(w.past, w.db.txs, t)))
  {
    var past' := Swallow(w.past, w.db.txs, t);
    forall i | i in past'.lost + past'.delayed ensures InSent(w.sent, i) {
      assert i == t.id || i in w.past.lost + w.past.delayed;
    }
  }

  lemma SwallowRecord(cfg: Config, w: World, t: Tx)
    requires cfg.maxConfirmations >= 1 && RowsOk(cfg, w.db.txs) && SentRecord(cfg, w.db.txs, w.past, t)
    ensures SentRecord(cfg, w.db.txs, Swallow(w.past, w.db.txs, t), AfterNotify(cfg, t))
  {
    assert t.id in w.db.txs ==> RowOk(cfg, t.id, w.db.txs[t.id]);
  }

  lemma SwallowKeeps(cfg: Config, w: World, t: Tx, tries: nat)
    requires Inv(cfg, w) && w.proc == Sent(t, tries)
    ensures Inv(cfg, w.(proc := AgainSent(AfterNotify(cfg, t), tries), past := Swallow(w.past, w.db.txs, t)))
  {
    hide DbOk, Gate, Known, Covered, RowsOk;
    assert w.sent[|w.sent| - 1].id == t.id;
    DbFacts(cfg, w.db, w.past);
    SwallowDb(cfg, w.db, w.past, t);
    SwallowSent(w, t);
    SwallowRecord(cfg, w, t);
  }

  /** A failed attempt that changed nothing is repeated, or stops the process. */
  lemma RetryKeeps(cfg: Config, w: World, proc': Process)
    requires Inv(cfg, w)
    requires proc'.Down? ||
             (w.proc.Sent? && proc'.Sent? && proc'.tx == w.proc.tx) ||
             (w.proc.Failed? && proc'.Failed? && proc'.tx == w.proc.tx && proc'.makePending == w.proc.makePending)
    ensures Inv(cfg, w.(proc := proc'))
  {
    hide DbOk, SentRecord, Gate, Unsent, RowMatches, Known, Covered;
  }

  lemma PersistSentKeeps(cfg: Config, w: World, t: Tx, tries: nat, a: Attempt)
    requires Inv(cfg, w) && w.proc == Sent(t, tries)
    ensures Inv(cfg, DoPersistSent(cfg, w, t, tries, a))
    ensures Grows(w.db.txs, DoPersistSent(cfg, w, t, tries, a).db.txs)
  {
    hide Inv, SaveSent, Grows, Swallow, AfterNotify;
    GrowsSame(w.db.txs);
    match a
    case Saved => SaveKeeps(cfg, w, Idle);
    case SavedUnreported => SaveKeeps(cfg, w, AgainSent(AfterNotify(cfg, t), tries));
    case NotSaved(notified) =>
      if notified {
        SwallowKeeps(cfg, w, t, tries);
      } else {
        RetryKeeps(cfg, w, AgainSent(t, tries));
      }
  }

  lemma SaveFailedKeeps(cfg: Config, w: World, t: Tx, makePending: bool, tries: nat, proc': Process)
    requires Inv(cfg, w) && w.proc == Failed(t, makePending, tries)
    requires proc'.Idle? || proc'.Down? || (proc'.Failed? && proc'.tx == t && proc'.makePending == makePending)
    ensures var r := SaveFailed(w.db, t, makePending);
            r.Stored? && Inv(cfg, w.(db := r.db, proc := proc')) && Grows(w.db.txs, r.db.txs)
  {
    hide DbOk, SentOk, HoldOk, ChainOk, Frame, Grows;
    var r := if makePending then UpdatePendingTxStatus(w.db, t, Pending) else Stored(w.db, t);
    if makePending {
      NotSentYet(w, t.id);
      PendingStatusKeeps(cfg, w.db, w.past, t, Pending);
      FrameRow(w.db.txs, t.id, t.(status := Pending), t.id);
    } else {
      FrameSame(w.db.txs, t.id);
    }
    var w' := w.(db := r.db.(lock := None), proc := proc');
    DbOkSameTables(cfg, r.db, w'.db, w.past);
    FrameGrows(w.db.txs, w'.db.txs, t.id);
    FrameKeepsSent(w, w', t.id);
    FrameKeepsHold(cfg, w, w', t.id);
    FrameKeepsChain(w, w', t.id);
  }

  lemma PersistFailedKeeps(cfg: Config, w: World, t: Tx, makePending: bool, tries: nat, a: Attempt)
    requires Inv(cfg, w) && w.proc == Failed(t, makePending, tries)
    ensures Inv(cfg, DoPersistFailed(w, t, makePending, tries, a))
    ensures Grows(w.db.txs, DoPersistFailed(w, t, makePending, tries, a).db.txs)
  {
    hide Inv, SaveFailed, Grows;
    GrowsSame(w.db.txs);
    match a
    case Saved => SaveFailedKeeps(cfg, w, t, makePending, tries, Idle);
    case SavedUnreported =>
      SaveFailedKeeps(cfg, w, t, makePending, tries, AgainFailed(t, makePending, tries));
    case NotSaved(_) => RetryKeeps(cfg, w, AgainFailed(t, makePending, tries));
  }

  // ------------------------------------------------------------------ polling

  /** What a scan has done so far, starting from `s`. */
  ghost predicate ScanOk(cfg: Config, s: Scan, s': Scan) {
    && s.Scan? && s'.Scan?
    && DbOk(cfg, s'.db, s'.past)
    && Frame(s.db.txs, s'.db.txs, NIL_ID)
    && s'.past.lost == s.past.lost && s'.past.delayed == s.past.delayed
    && s'.db.(txs := s.db.txs, events := s.db.events) == s.db
  }

  lemma ScanTrans(cfg: Config, a: Scan, b: Scan, c: Scan)
    requires ScanOk(cfg, a, b) && ScanOk(cfg, b, c)
    ensures ScanOk(cfg, a, c)
  {
    hide DbOk, Frame;
    FrameTrans(a.db.txs, b.db.txs, c.db.txs, NIL_ID);
  }

  lemma TakeInKnown(cfg: Config, s: Scan, t: Tx, newId: TxId, i: TxId)
    requires s.Scan? && DbOk(cfg, s.db, s.past)
    requires i in s.db.txs && t.hash != "" && SameKey(s.db.txs[i], t) && (t.id == NIL_ID || t.id == i)
    requires !Waiting(t.status)
    ensures ScanOk(cfg, s, TakeIn(cfg, s, t, newId))
    ensures TakeIn(cfg, s, t, newId).db.txs == s.db.txs[i := Observed(cfg, s.db.txs[i], t)]
  {
    assert RowOk(cfg, i, s.db.txs[i]);
    ObservedStep(cfg, i, s.db.txs[i], t);
    hide DbOk, Frame, UpdateTxInfo, Observed, RowOk, SameKey;
    ObserveKnown(cfg, s.db, s.past, t, newId, i);
    FrameRow(s.db.txs, i, Observed(cfg, s.db.txs[i], t), NIL_ID);
    hide RowStep, Released;
  }

  /** A count for a broadcast row stays inside the frame. */
  lemma ObservedStep(cfg: Config, i: TxId, row: Tx, t: Tx)
    requires RowOk(cfg, i, row) && t.hash != "" && SameKey(row, t) && !Waiting(t.status)
    ensures var o := Observed(cfg, row, t);
      && RowStep(row, o) && (Released(o) ==> Released(row)) && !o.status.Cancelled? && row.hash != ""
  {
  }

  lemma TakeInNew(cfg: Config, s: Scan, n: NodeTx, newId: TxId)
    requires s.Scan? && DbOk(cfg, s.db, s.past)
    requires n.hash != "" && n.direction.Incoming? && forall j :: j in s.db.txs ==> !SameKey(s.db.txs[j], FromNode(n))
    requires newId != NIL_ID && newId !in s.db.txs && newId !in s.past.lost
    ensures ScanOk(cfg, s, TakeIn(cfg, s, FromNode(n), newId))
    ensures TakeIn(cfg, s, FromNode(n), newId).db.txs
         == s.db.txs[newId := Observed(cfg, FromNode(n).(id := newId), FromNode(n))]
  {
    ObserveNew(cfg, s.db, s.past, FromNode(n), newId);
    FrameRow(s.db.txs, newId, Observed(cfg, FromNode(n).(id := newId), FromNode(n)), NIL_ID);
  }

  /** One entry of a listing: afterwards it is known. */
  lemma TakeInEntry(cfg: Config, s: Scan, n: NodeTx, newId: TxId)
    requires s.Scan? && DbOk(cfg, s.db, s.past)
    requires n.hash != "" && (n.direction.Outgoing? ==> Known(s.db.txs, EntryOf(n)))
    requires newId != NIL_ID && newId !in s.db.txs && newId !in s.past.lost
    ensures ScanOk(cfg, s, TakeIn(cfg, s, FromNode(n), newId))
    ensures TakeIn(cfg, s, FromNode(n), newId).db.txs.Keys <= s.db.txs.Keys + {newId}
    ensures Known(TakeIn(cfg, s, FromNode(n), newId).db.txs, EntryOf(n))
  {
    var t := FromNode(n);
    var s' := TakeIn(cfg, s, t, newId);
    if i :| i in s.db.txs && SameKey(s.db.txs[i], t) {
      TakeInKnown(cfg, s, t, newId, i);
      assert EntryOf(n) == Entry(s'.db.txs[i].hash, s'.db.txs[i].direction, s'.db.txs[i].address);
    } else {
      assert n.direction.Incoming?;
      TakeInNew(cfg, s, n, newId);
      assert EntryOf(n) == Entry(s'.db.txs[newId].hash, s'.db.txs[newId].direction, s'.db.txs[newId].address);
    }
  }

  ghost predicate EntriesOk(s: Scan, entries: seq<NodeTx>, ids: seq<TxId>) {
    && s.Scan? && |ids| == |entries|
    && (forall n :: 0 <= n < |entries| ==>
          entries[n].hash != "" && (entries[n].direction.Outgoing? ==> Known(s.db.txs, EntryOf(entries[n]))))
    && (forall n :: 0 <= n < |ids| ==> ids[n] != NIL_ID && ids[n] !in s.db.txs && ids[n] !in s.past.lost)
    && forall m, n :: 0 <= m < n < |ids| ==> ids[m] != ids[n]
  }

  /** The entries taken in so far are known and only their ids are new. */
  ghost predicate TakenIn(s: Scan, s': Scan, entries: seq<NodeTx>, ids: seq<TxId>) {
    && s.Scan? && s'.Scan?
    && (forall i :: i in s'.db.txs ==> i in s.db.txs || i in ids)
    && (forall n :: 0 <= n < |entries| ==> Known(s'.db.txs, EntryOf(entries[n])))
  }

  lemma ScanNewReady(cfg: Config, s: Scan, p: Scan, entries: seq<NodeTx>, ids: seq<TxId>, n: nat)
    requires EntriesOk(s, entries, ids) && n < |entries|
    requires ScanOk(cfg, s, p) && TakenIn(s, p, entries[..n], ids[..n])
    ensures entries[n].direction.Outgoing? ==> Known(p.db.txs, EntryOf(entries[n]))
    ensures ids[n] != NIL_ID && ids[n] !in p.db.txs && ids[n] !in p.past.lost
  {
    if entries[n].direction.Outgoing? {
      KnownStays(s.db.txs, p.db.txs, NIL_ID, EntryOf(entries[n]));
    }
    assert ids[n] !in ids[..n];
  }

  lemma ScanNewStep(cfg: Config, s: Scan, p: Scan, s': Scan, entries: seq<NodeTx>, ids: seq<TxId>, n: nat)
    requires EntriesOk(s, entries, ids) && n < |entries|
    requires ScanOk(cfg, s, p) && TakenIn(s, p, entries[..n], ids[..n])
    requires ScanOk(cfg, p, s') && s'.db.txs.Keys <= p.db.txs.Keys + {ids[n]}
    requires Known(s'.db.txs, EntryOf(entries[n]))
    ensures ScanOk(cfg, s, s') && TakenIn(s, s', entries[..n + 1], ids[..n + 1])
  {
    hide DbOk, Frame, Known;
    ScanTrans(cfg, s, p, s');
    forall m | 0 <= m < n ensures Known(s'.db.txs, EntryOf(entries[m])) {
      assert entries[..n][m] == entries[m];
      KnownStays(p.db.txs, s'.db.txs, NIL_ID, EntryOf(entries[m]));
    }
    forall i | i in s'.db.txs ensures i in s.db.txs || i in ids[..n + 1] {
      assert i in p.db.txs || i == ids[..n + 1][n];
      if i in ids[..n] {
        var k :| 0 <= k < n && ids[k] == i;
        assert ids[..n + 1][k] == i;
      }
    }
  }

  lemma EntriesPrefix(s: Scan, entries: seq<NodeTx>, ids: seq<TxId>, n: nat)
    requires EntriesOk(s, entries, ids) && n <= |entries|
    ensures EntriesOk(s, entries[..n], ids[..n])
  {
  }

  lemma {:induction false} ScanNewKeeps(cfg: Config, s: Scan, entries: seq<NodeTx>, ids: seq<TxId>)
    requires s.Scan? && DbOk(cfg, s.db, s.past) && EntriesOk(s, entries, ids)
    ensures ScanOk(cfg, s, ScanNew(cfg, s, entries, ids))
    ensures TakenIn(s, ScanNew(cfg, s, entries, ids), entries, ids)
  {
    hide DbOk, TakeIn, Known, Frame;
    if entries == [] {
      FrameSame(s.db.txs, NIL_ID);
    } else {
      var n := |entries| - 1;
      EntriesPrefix(s, entries, ids, n);
      ScanNewKeeps(cfg, s, entries[..n], ids[..n]);
      var p := ScanNew(cfg, s, entries[..n], ids[..n]);
      ScanNewReady(cfg, s, p, entries, ids, n);
      TakeInEntry(cfg, p, entries[n], ids[n]);
      ScanNewStep(cfg, s, p, ScanNew(cfg, s, entries, ids), entries, ids, n);
      assert entries[..n + 1] == entries && ids[..n + 1] == ids;
    }
  }

  lemma {:induction false} ScanKnownKeeps(cfg: Config, s: Scan, order: seq<TxId>, infos: map<string, Info>)
    requires s.Scan? && DbOk(cfg, s.db, s.past)
    requires forall n :: 0 <= n < |order| ==> order[n] in s.db.txs && s.db.txs[order[n]].hash != ""
    ensures ScanOk(cfg, s, ScanKnown(cfg, s, order, infos))
  {
    hide DbOk, Frame, TakeIn;
    if order == [] {
      FrameSame(s.db.txs, NIL_ID);
    } else {
      var n := |order| - 1;
      var p := ScanKnown(cfg, s, order[..n], infos);
      ScanKnownKeeps(cfg, s, order[..n], infos);
      BroadcastRow(cfg, s, p, order[n]);
      var row := p.db.txs[order[n]];
      if row.hash in infos {
        TakeInKnown(cfg, p, Refreshed(row, infos), NIL_ID, order[n]);
        ScanTrans(cfg, s, p, ScanKnown(cfg, s, order, infos));
      }
    }
  }

  lemma BroadcastRow(cfg: Config, s: Scan, p: Scan, i: TxId)
    requires s.Scan? && ScanOk(cfg, s, p) && i in s.db.txs && s.db.txs[i].hash != ""
    ensures i in p.db.txs && p.db.txs[i].id == i && p.db.txs[i].hash != "" && !Waiting(p.db.txs[i].status)
  {
    assert RowStep(s.db.txs[i], p.db.txs[i]);
    assert RowOk(cfg, i, p.db.txs[i]);
  }

  /** A poll that commits: the last seen block moves only past known entries. */
  lemma PollKeeps(cfg: Config, w: World, s: Scan, lastBlock: string, out: Commit)
    requires Inv(cfg, w) && w.proc.Idle? && ScanOk(cfg, Scan(w.db, w.past), s)
    requires ChainOk(w.(db := s.db.(lastBlock := lastBlock)))
    ensures Inv(cfg, DoPoll(w, s, lastBlock, out))
    ensures Grows(w.db.txs, DoPoll(w, s, lastBlock, out).db.txs)
  {
    hide DbOk, SentOk, HoldOk, Frame, Grows;
    var w' := w.(db := s.db.(lastBlock := lastBlock), past := s.past);
    DbOkSameTables(cfg, s.db, w'.db, s.past);
    DbFacts(cfg, w'.db, s.past);
    GrowsSame(w.db.txs);
    FrameGrows(w.db.txs, w'.db.txs, NIL_ID);
    FrameKeepsSent(w, w', NIL_ID);
    FrameKeepsHold(cfg, w, w', NIL_ID);
  }

  lemma ListingEntries(cfg: Config, w: World, entries: seq<NodeTx>, lastBlock: string, ids: seq<TxId>)
    requires Inv(cfg, w) && w.proc.Idle? && ListingOk(w, entries, lastBlock, ids)
    ensures EntriesOk(Scan(w.db, w.past), entries, ids)
  {
    forall n | 0 <= n < |entries| && entries[n].direction.Outgoing?
      ensures Known(w.db.txs, EntryOf(entries[n]))
    {
      var k :| 0 <= k < |w.sent| && w.sent[k].hash == entries[n].hash && w.sent[k].address == entries[n].address;
      assert Recorded(w.db.txs, w.sent[k]);
      assert EntryOf(entries[n]) == Entry(w.db.txs[w.sent[k].id].hash, Outgoing, w.db.txs[w.sent[k].id].address);
    }
    forall n | 0 <= n < |ids| ensures ids[n] !in w.past.lost {
      NotSentYet(w, ids[n]);
    }
  }

  lemma ListingCovers(w: World, txs': map<TxId, Tx>, entries: seq<NodeTx>, lastBlock: string, ids: seq<TxId>)
    requires ChainOk(w) && ListingOk(w, entries, lastBlock, ids) && Frame(w.db.txs, txs', NIL_ID)
    requires forall n :: 0 <= n < |entries| ==> Known(txs', EntryOf(entries[n]))
    ensures ChainOk(w.(db := w.db.(txs := txs', lastBlock := lastBlock)))
  {
    var tip := |w.chain| - 1;
    if w.chain != [] {
      assert w.chain[tip].hash == lastBlock;
    }
    forall i, o | 0 <= i < |w.chain| && o in w.chain[i].outputs ensures Known(txs', o.entry) {
      assert BlockOk(w.chain[i]);
      if Covered(w.chain, w.db.lastBlock, i) {
        KnownStays(w.db.txs, txs', NIL_ID, o.entry);
      } else {
        assert Lists(entries, o);
        var n :| 0 <= n < |entries| && OutputOf(entries[n]) == o;
        assert Known(txs', EntryOf(entries[n]));
      }
    }
  }

  lemma PollNewKeeps(cfg: Config, w: World, entries: seq<NodeTx>, lastBlock: string, ids: seq<TxId>, out: Commit)
    requires Inv(cfg, w) && w.proc.Idle? && ListingOk(w, entries, lastBlock, ids)
    ensures var w' := DoPollNew(w, ScanNew(cfg, Scan(w.db, w.past), entries, ids), entries, lastBlock, out);
      Inv(cfg, w') && Grows(w.db.txs, w'.db.txs)
  {
    var s := Scan(w.db, w.past);
    ListingEntries(cfg, w, entries, lastBlock, ids);
    ScanNewKeeps(cfg, s, entries, ids);
    var s' := ScanNew(cfg, s, entries, ids);
    ListingCovers(w, s'.db.txs, entries, lastBlock, ids);
    assert ChainOk(w.(db := s'.db.(lastBlock := lastBlock)));
    PollKeeps(cfg, w, s', lastBlock, out);
    SameButHistory(cfg, DoPoll(w, s', lastBlock, out), w.listed + entries, w.moved);
  }

  lemma PollKnownKeeps(cfg: Config, w: World, order: seq<TxId>, infos: map<string, Info>, out: Commit)
    requires Inv(cfg, w) && w.proc.Idle? && RefreshOk(cfg, w, order, infos)
    ensures Inv(cfg, DoPoll(w, ScanKnown(cfg, Scan(w.db, w.past), order, infos), w.db.lastBlock, out))
    ensures Grows(w.db.txs, DoPoll(w, ScanKnown(cfg, Scan(w.db, w.past), order, infos), w.db.lastBlock, out).db.txs)
  {
    var s := Scan(w.db, w.past);
    forall n | 0 <= n < |order| ensures order[n] in w.db.txs && w.db.txs[order[n]].hash != "" {
      assert order[n] in LessConfirmed(cfg, w.db.txs);
    }
    ScanKnownKeeps(cfg, s, order, infos);
    var s' := ScanKnown(cfg, s, order, infos);
    FrameKeepsChain(w, w.(db := s'.db), NIL_ID);
    assert ChainOk(w.(db := s'.db.(lastBlock := w.db.lastBlock)));
    PollKeeps(cfg, w, s', w.db.lastBlock, out);
  }

  // ------------------------------------------------------------ outside events

  lemma MineCovers(chain: seq<Block>, b: Block, lastBlock: string, i: nat)
    requires b.hash != lastBlock
    ensures Covered(chain + [b], lastBlock, i) <==> Covered(chain, lastBlock, i)
  {
    var chain' := chain + [b];
    if j :| i <= j < |chain| && chain[j].hash == lastBlock {
      assert chain'[j].hash == lastBlock;
    } else if j :| i <= j < |chain'| && chain'[j].hash == lastBlock {
      assert chain[j].hash == lastBlock;
    }
  }

  lemma MineChain(cfg: Config, w: World, b: Block)
    requires ChainOk(w) && Legal(cfg, w, Mine(b))
    ensures ChainOk(w.(chain := w.chain + [b]))
  {
    var chain' := w.chain + [b];
    forall i: nat ensures Covered(chain', w.db.lastBlock, i) <==> Covered(w.chain, w.db.lastBlock, i) {
      MineCovers(w.chain, b, w.db.lastBlock, i);
    }
    hide Known;
    forall i, o | 0 <= i < |chain'| && o in chain'[i].outputs && Covered(chain', w.db.lastBlock, i)
      ensures Known(w.db.txs, o.entry)
    {
      assert Covered(w.chain, w.db.lastBlock, i);
      assert chain'[i] == w.chain[i];
    }
  }

  lemma MineKeeps(cfg: Config, w: World, b: Block)
    requires Inv(cfg, w) && Legal(cfg, w, Mine(b))
    ensures Inv(cfg, w.(chain := w.chain + [b]))
  {
    hide DbOk, SentRecord, Gate, ChainOk, Unsent, RowMatches;
    MineChain(cfg, w, b);
  }

  lemma OutsideKeeps(cfg: Config, w: World, a: Action)
    requires Inv(cfg, w) && (a.AddAccount? || a.Crash? || a.Restart?)
    ensures Inv(cfg, Next(cfg, w, a))
  {
    hide DbOk, SentRecord, Gate, Unsent, RowMatches, Known, Covered;
    if a.AddAccount? {
      DbOkSameTables(cfg, w.db, Next(cfg, w, a).db, w.past);
    }
  }

  lemma RequestKeeps(cfg: Config, w: World, a: Action)
    requires Inv(cfg, w) && Legal(cfg, w, a) && w.proc.Idle?
    requires a.Withdraw? || a.Confirm? || a.Resend? || a.Cancel? || a.MarkPending?
    ensures Inv(cfg, Next(cfg, w, a))
    ensures Grows(w.db.txs, Next(cfg, w, a).db.txs)
  {
    hide Inv, DoWithdraw, DoConfirm, DoResend, DoCancel, DoMark, Grows, FreshId;
    match a
    case Withdraw(r, toCold, out, newId) => WithdrawKeeps(cfg, w, r, toCold, out, newId);
    case Confirm(id, out, newId) => ConfirmKeeps(cfg, w, id, out, newId);
    case Resend(id, out, newId) => ResendKeeps(cfg, w, id, out, newId);
    case Cancel(id, out) => CancelKeeps(cfg, w, id, out);
    case MarkPending(marks, need, out) => MarkKeeps(cfg, w, marks, need, out);
  }

  lemma PersistKeeps(cfg: Config, w: World, a: Action)
    requires Inv(cfg, w) && a.Persist?
    ensures Inv(cfg, Next(cfg, w, a))
    ensures Grows(w.db.txs, Next(cfg, w, a).db.txs)
  {
    hide Inv, DoPersistSent, DoPersistFailed, Grows;
    GrowsSame(w.db.txs);
    if w.proc.Sent? {
      PersistSentKeeps(cfg, w, w.proc.tx, w.proc.tries, a.attempt);
    } else if w.proc.Failed? {
      PersistFailedKeeps(cfg, w, w.proc.tx, w.proc.makePending, w.proc.tries, a.attempt);
    }
  }

  /** The invariant is inductive. */
  lemma StepKeeps(cfg: Config, w: World, a: Action)
    requires Inv(cfg, w) && Legal(cfg, w, a)
    ensures Inv(cfg, Next(cfg, w, a))
    ensures Grows(w.db.txs, Next(cfg, w, a).db.txs)
  {
    hide Inv, Grows, ListingOk, RefreshOk, DoPoll, DoPollNew, ScanNew, ScanKnown, DoPersistSent, DoPersistFailed, DoWithdraw,
      DoConfirm, DoResend, DoCancel, DoMark;
    GrowsSame(w.db.txs);
    if a.Withdraw? || a.Confirm? || a.Resend? || a.Cancel? || a.MarkPending? {
      if w.proc.Idle? {
        RequestKeeps(cfg, w, a);
      }
    } else if a.Persist? {
      PersistKeeps(cfg, w, a);
    } else if a.NodeReplies? {
      if w.proc.Locked? {
        ReplyKeeps(cfg, w, w.proc.tx, a.reply);
      }
    } else if a.PollNew? {
      if w.proc.Idle? {
        PollNewKeeps(cfg, w, a.entries, a.lastBlock, a.ids, a.out);
      }
    } else if a.PollKnown? {
      if w.proc.Idle? {
        PollKnownKeeps(cfg, w, a.order, a.infos, a.out);
      }
    } else if a.Mine? {
      MineKeeps(cfg, w, a.block);
    } else {
      OutsideKeeps(cfg, w, a);
    }
  }
}
