/** What each request, each answer of the node and each attempt to save it does to the
    wallet, in terms of the record, the configuration and the table alone. */
module WithdrawalOutcomes {
  import opened Types
  import opened Ledger
  import opened LedgerInvariant
  import opened LedgerSteps
  import opened WalletMachine
  import opened WalletInvariant
  import opened WalletSteps
  import opened WalletTheorems
  import opened WalletCalls

  // ------------------------------------------------------------------ new requests

  function AddressOf(cfg: Config, r: Request, toCold: bool): string {
    if r.address != "" then r.address else if toCold then cfg.coldAddress else ""
  }

  /** What Withdraw asks of a request. */
  predicate Allowed(cfg: Config, r: Request, toCold: bool) {
    && AddressOf(cfg, r, toCold) != ""
    && AddressOf(cfg, r, toCold) != cfg.hotAddress
    && (!toCold ==>
          && cfg.minWithdraw <= r.amount
          && (r.feeType == PerKBRateFee ==> cfg.minFeePerKb <= r.fee)
          && (r.feeType == FixedFee ==> cfg.minFeeFixed <= r.fee))
  }

  /** A regular request above the threshold waits for a manual confirmation. */
  predicate NeedsConfirmation(cfg: Config, r: Request, toCold: bool) {
    !toCold && r.amount > cfg.holdAbove
  }

  function RecordOf(cfg: Config, r: Request, toCold: bool): Tx {
    Tx(r.id, "", "", 0, AddressOf(cfg, r, toCold), Outgoing, New, r.amount, r.fee, r.feeType, toCold, -1)
  }

  lemma AdmitIs(cfg: Config, r: Request, toCold: bool)
    ensures Admit(cfg, r, toCold)
         == if Allowed(cfg, r, toCold) then Some((RecordOf(cfg, r, toCold), NeedsConfirmation(cfg, r, toCold))) else None
  {
  }

  /** A record stored under a new pending status, with the event that says so. */
  ghost predicate StatusStored(w: World, w': World, t: Tx, s: Status, kind: EventType) {
    w' == w.(db := w.db.(txs := w.db.txs[t.id := t.(status := s)],
                         events := w.db.events + [Event(kind, t.(status := s))]))
  }

  /** The withdrawal is locked and about to be handed to the node. */
  ghost predicate Locks(w: World, w': World, t: Tx) {
    w' == w.(db := w.db.(lock := Some(t)), proc := Locked(t))
  }

  /** What sendWithdrawal does up to the call to the node. */
  ghost predicate Started(cfg: Config, w: World, w': World, t: Tx, out: Commit, newId: TxId) {
    var sendable := t.feeType == PerKBRateFee || t.feeType == FixedFee;
    && (t.address !in w.db.accounts && out == Committed && sendable ==> Locks(w, w', t))
    && (t.address !in w.db.accounts && out == Unreported && sendable ==> w' == w.(db := w.db.(lock := Some(t))))
    && (t.address !in w.db.accounts && (out == Dropped || !sendable) ==> w' == w)
    && (t.address in w.db.accounts && (out == Dropped || (t.feeType == FixedFee && t.amount < t.fee)) ==> w' == w)
    && (t.address in w.db.accounts && out != Dropped && !(t.feeType == FixedFee && t.amount < t.fee) ==>
          Moved(cfg, w, w', t, newId))
  }

  /** A finished transfer between our accounts. */
  ghost predicate Moved(cfg: Config, w: World, w': World, t: Tx, newId: TxId) {
    && w'.sent == w.sent && w'.proc == w.proc && w'.db.lock == w.db.lock
    && w'.moved == w.moved + [Move(t.id, t.cold)]
    && w'.db.txs.Keys == w.db.txs.Keys + {newId} + (if t.cold then {} else {t.id})
    && (forall i :: i in w.db.txs && (i != t.id || t.cold) ==> w'.db.txs[i] == w.db.txs[i])
    && (!t.cold ==> Transferred(cfg, w'.db, t.id, Outgoing, t.address, t.amount))
    && (t.feeType == FixedFee ==> Transferred(cfg, w'.db, newId, Incoming, t.address, t.amount - t.fee))
    && (t.feeType != FixedFee ==> Transferred(cfg, w'.db, newId, Incoming, t.address, t.amount))
  }

  lemma DispatchStarts(cfg: Config, w: World, t: Tx, out: Commit, newId: TxId)
    requires Inv(cfg, w) && w.proc.Idle? && UnsentRecord(cfg, w, t) && FreshId(w, newId) && newId != t.id
    ensures Started(cfg, w, Dispatch(cfg, w, t, out, newId), t, out, newId)
  {
    hide Inv, UnsentRecord, Dispatch, Transferred, FreshId;
    if t.address in w.db.accounts {
      InternalTransferConserves(cfg, w, t, out, newId);
    } else {
      ForeignStarts(cfg, w, t, out, newId);
    }
  }

  lemma ForeignStarts(cfg: Config, w: World, t: Tx, out: Commit, newId: TxId)
    requires w.proc.Idle? && t.address !in w.db.accounts
    ensures Started(cfg, w, Dispatch(cfg, w, t, out, newId), t, out, newId)
  {
    hide InternalTransfer, Moved;
  }

  /** A withdraw request: refused, held for confirmation, or started. */
  lemma WithdrawOutcome(cfg: Config, w: World, r: Request, toCold: bool, out: Commit, newId: TxId)
    requires Inv(cfg, w) && w.proc.Idle? && Legal(cfg, w, Withdraw(r, toCold, out, newId))
    ensures var w', t := Next(cfg, w, Withdraw(r, toCold, out, newId)), RecordOf(cfg, r, toCold);
      && (!Allowed(cfg, r, toCold) || r.id in w.db.txs ==> w' == w)
      && (Allowed(cfg, r, toCold) && r.id !in w.db.txs && NeedsConfirmation(cfg, r, toCold) ==>
            if out == Dropped then w' == w else StatusStored(w, w', t, PendingManual, PendingStatusUpdated))
      && (Allowed(cfg, r, toCold) && r.id !in w.db.txs && !NeedsConfirmation(cfg, r, toCold) ==>
            Started(cfg, w, w', t, out, newId))
  {
    hide Inv, Dispatch, UpdatePendingTxStatus, Started, Admit, Allowed, UnsentRecord, Ready, FreshId;
    AdmitIs(cfg, r, toCold);
    if Allowed(cfg, r, toCold) && r.id !in w.db.txs {
      var t := RecordOf(cfg, r, toCold);
      if NeedsConfirmation(cfg, r, toCold) {
        PendingStatusShape(w.db, t, PendingManual);
      } else {
        AdmittedReady(cfg, w, r, toCold, newId, Refused(false));
        ReadyIs(cfg, w, t, newId, Refused(false));
        DispatchStarts(cfg, w, t, out, newId);
      }
    }
  }

  // ----------------------------------------------------- requests about stored rows

  /** A confirm request starts a withdrawal that awaits it and is refused otherwise. */
  lemma ConfirmOutcome(cfg: Config, w: World, id: TxId, out: Commit, newId: TxId)
    requires Inv(cfg, w) && w.proc.Idle? && FreshId(w, newId)
    ensures var w', w1 := Next(cfg, w, Confirm(id, out, newId)), w.(confirmed := w.confirmed + {id});
      if id in w.db.txs && w.db.txs[id].status == PendingManual then Started(cfg, w1, w', w.db.txs[id], out, newId)
      else w' == w
  {
    hide Inv, Dispatch, Started, UnsentRecord;
    if id in w.db.txs && w.db.txs[id].status.PendingManual? {
      ConfirmReady(cfg, w, id);
      StoredIsUnsent(cfg, w, id);
      DispatchStarts(cfg, w.(confirmed := w.confirmed + {id}), w.db.txs[id], out, newId);
    }
  }

  /** Sending again starts a withdrawal that waits for funds and nothing else. */
  lemma ResendOutcome(cfg: Config, w: World, id: TxId, out: Commit, newId: TxId)
    requires Inv(cfg, w) && w.proc.Idle? && FreshId(w, newId)
    ensures var w' := Next(cfg, w, Resend(id, out, newId));
      if id in w.db.txs && (w.db.txs[id].status == Pending || w.db.txs[id].status == PendingColdStorage)
      then Started(cfg, w, w', w.db.txs[id], out, newId) else w' == w
  {
    hide Inv, Dispatch, Started, UnsentRecord;
    if id in w.db.txs && Scheduled(w.db.txs[id].status) {
      ResendReady(cfg, w, id);
      StoredIsUnsent(cfg, w, id);
      DispatchStarts(cfg, w, w.db.txs[id], out, newId);
    }
  }

  /** The record a request, a confirmation or the scheduler hands to sendWithdrawal. */
  ghost predicate Sends(cfg: Config, w: World, a: Action, t: Tx) {
    match a
    case Withdraw(r, toCold, _, _) =>
      Allowed(cfg, r, toCold) && r.id !in w.db.txs && !NeedsConfirmation(cfg, r, toCold) && t == RecordOf(cfg, r, toCold)
    case Confirm(id, _, _) => id in w.db.txs && t == w.db.txs[id] && t.status == PendingManual
    case Resend(id, _, _) =>
      id in w.db.txs && t == w.db.txs[id] && (t.status == Pending || t.status == PendingColdStorage)
    case _ => false
  }

  /** With a reported lock commit, a withdrawal to a foreign address is locked and about to
      be sent if and only if its fee is a rate or fixed. */
  lemma LocksIff(cfg: Config, w: World, a: Action, t: Tx)
    requires Inv(cfg, w) && w.proc.Idle? && Legal(cfg, w, a) && Sends(cfg, w, a, t)
    requires a.out == Committed && t.address !in w.db.accounts
    ensures var w' := Next(cfg, w, a);
      w'.db.lock == Some(t) && w'.proc == Locked(t) <==> t.feeType == PerKBRateFee || t.feeType == FixedFee
  {
    hide Inv, Next, Allowed, RecordOf;
    match a
    case Withdraw(r, toCold, out, newId) => WithdrawOutcome(cfg, w, r, toCold, out, newId);
    case Confirm(id, out, newId) => ConfirmOutcome(cfg, w, id, out, newId);
    case Resend(id, out, newId) => ResendOutcome(cfg, w, id, out, newId);
  }

  /** Cancelling: possible in the three pending statuses, and final. */
  lemma CancelOutcome(cfg: Config, w: World, id: TxId, out: Commit)
    requires Inv(cfg, w) && w.proc.Idle?
    ensures var w' := Next(cfg, w, Cancel(id, out));
      if id in w.db.txs && w.db.txs[id].status in {Pending, PendingColdStorage, PendingManual} && out != Dropped
      then StatusStored(w, w', w.db.txs[id], Cancelled, PendingTxCancelled) else w' == w
  {
    hide Inv, Next, UpdatePendingTxStatus;
    CancelIs(cfg, w, id, out);
    if Cancellable(w.db.txs, id) {
      StoredIsUnsent(cfg, w, id);
      PendingStatusShape(w.db, w.db.txs[id], Cancelled);
    }
  }

  /** A crash stops the process wherever it is and keeps the database; a stopped process
      starts again if and only if the lock is clear. */
  lemma RestartIff(cfg: Config, w: World)
    ensures Next(cfg, w, Crash) == w.(proc := Down)
    ensures w.proc.Down? ==> Next(cfg, w, Restart) == if w.db.lock == None then w.(proc := Idle) else w
  {
  }

  // ------------------------------------------------------------ the node and saving

  /** The node's answer: a broadcast on record, or a refusal that leaves a regular
      withdrawal pending if and only if funds are missing. */
  lemma ReplyOutcome(cfg: Config, w: World, t: Tx, r: Reply)
    requires w.proc == Locked(t)
    ensures var w' := Next(cfg, w, NodeReplies(r));
      match r
      case Accepted(h) =>
        && w'.sent == w.sent + [Broadcast(t.id, h, t.address, t.amount, t.cold)]
        && w'.proc == Sent(t.(status := New, hash := h), 10)
        && w' == w.(sent := w'.sent, proc := w'.proc)
      case Refused(noFunds) =>
        w' == w.(proc := Failed(t, noFunds && !t.cold, 10))
  {
  }

  /** A reported save of a broadcast withdrawal: its row, its first event, the lock. */
  lemma SavedOutcome(cfg: Config, w: World, t: Tx, tries: nat)
    requires Inv(cfg, w) && w.proc == Sent(t, tries)
    ensures var w' := Next(cfg, w, Persist(Saved));
      && w'.proc == Idle && w'.db.lock == None && w'.sent == w.sent && w'.past == w.past
      && t.id in w'.db.txs && w'.db.txs == w.db.txs[t.id := w'.db.txs[t.id]]
      && w'.db.txs[t.id].hash == t.hash && w'.db.txs[t.id].status == New
      && (t.cold || t.reported == 0 ==> w'.db.events == w.db.events)
      && (!t.cold && t.reported == -1 ==>
            && w'.db.txs[t.id].reported == 0
            && |w'.db.events| == |w.db.events| + 1 && w'.db.events[..|w.db.events|] == w.db.events
            && var e := w'.db.events[|w.db.events|];
               e.kind == NewOutgoingTx && e.tx.id == t.id && e.tx.hash == t.hash && e.tx.confirmations == 0)
  {
    PersistSentIs(cfg, w, t, tries, Saved);
    PersistSentStart(cfg, w, t, tries);
    SavedFacts(cfg, w, t, tries);
    hide Inv, Next, SaveSent;
  }

  lemma SavedFacts(cfg: Config, w: World, t: Tx, tries: nat)
    requires Inv(cfg, w) && w.proc == Sent(t, tries)
    ensures var r := SaveSent(cfg, w.db, t);
      && r.Stored? && r.db.lock.None?
      && t.id in r.db.txs && r.db.txs[t.id].hash == t.hash && r.db.txs[t.id].status.New?
      && r.db.txs == w.db.txs[t.id := r.db.txs[t.id]]
      && (!t.cold && t.reported == -1 ==> r.db.txs[t.id].reported == 0)
      && r.db.events == w.db.events + (if t.cold || t.reported == 0 then [] else [Report(cfg, t, 0)])
      && Report(cfg, t, 0).kind.NewOutgoingTx? && Report(cfg, t, 0).tx.id == t.id
      && Report(cfg, t, 0).tx.hash == t.hash && Report(cfg, t, 0).tx.confirmations == 0
      && (t.reported == 0 || t.reported == -1)
  {
    SaveSentKeeps(cfg, w.db, w.past, t);
    SaveSentShape(cfg, w.db, w.past, t);
    ReportShape(cfg, t, 0);
    hide SaveSent, DbOk, SentOk, HoldOk, ChainOk;
  }

  /** A reported save of a refused withdrawal: pending with its event, or as it was; the
      lock is released either way. */
  lemma RefusalOutcome(cfg: Config, w: World, t: Tx, makePending: bool, tries: nat)
    requires Inv(cfg, w) && w.proc == Failed(t, makePending, tries)
    ensures var w' := Next(cfg, w, Persist(Saved));
      var w1 := w'.(proc := w.proc, db := w'.db.(lock := w.db.lock));
      && w'.proc == Idle && w'.db.lock == None
      && (!makePending || t.status == Pending ==> w1 == w)
      && (makePending && t.status != Pending ==> StatusStored(w, w1, t, Pending, PendingStatusUpdated))
  {
    PersistFailedIs(cfg, w, t, makePending, tries, Saved);
    PersistFailedStart(cfg, w, t, makePending, tries);
    FailedRow(cfg, w, t, makePending, tries);
    if makePending && t.status != Pending {
      PendingStatusShape(w.db, t, Pending);
    }
    hide Inv, Next, UpdatePendingTxStatus;
  }

  lemma FailedRow(cfg: Config, w: World, t: Tx, makePending: bool, tries: nat)
    requires Inv(cfg, w) && w.proc == Failed(t, makePending, tries)
    ensures t.id != NIL_ID && t.hash == "" && (t.id in w.db.txs ==> w.db.txs[t.id] == t.(status := w.db.txs[t.id].status))
    ensures t.status == Pending ==> UpdatePendingTxStatus(w.db, t, Pending) == Stored(w.db, t)
  {
  }

  /** Attempts that were not saved. */
  predicate Unsaved(attempts: seq<Attempt>) {
    forall k :: 0 <= k < |attempts| ==> attempts[k] != Saved
  }

  function Persists(attempts: seq<Attempt>): (r: seq<Action>)
    ensures |r| == |attempts| && forall k :: 0 <= k < |r| ==> r[k] == Persist(attempts[k])
  {
    seq(|attempts|, k requires 0 <= k < |attempts| => Persist(attempts[k]))
  }

  function TriesLeft(p: Process): int {
    match p
    case Sent(_, tries) => tries
    case Failed(_, _, tries) => tries
    case _ => -1
  }

  /** After a send the wallet stops if and only if eleven attempts to save its outcome in a
      row were not reported as saved. */
  lemma {:induction false} StopsAfterElevenIff(cfg: Config, w: World, t: Tx, r: Reply, attempts: seq<Attempt>)
    requires Inv(cfg, w) && w.proc == Locked(t) && Legal(cfg, w, NodeReplies(r))
    requires Unsaved(attempts) && |attempts| <= 11
    ensures var w' := Run(cfg, Next(cfg, w, NodeReplies(r)), Persists(attempts));
      Inv(cfg, w') && (w'.proc.Down? <==> |attempts| == 11) && TriesLeft(w'.proc) == 10 - |attempts|
  {
    hide Inv, Legal;
    var w0 := Next(cfg, w, NodeReplies(r));
    StepKeeps(cfg, w, NodeReplies(r));
    ReplyOutcome(cfg, w, t, r);
    if attempts == [] {
      assert Run(cfg, w0, []) == w0;
    } else {
      var init := attempts[..|attempts| - 1];
      StopsAfterElevenIff(cfg, w, t, r, init);
      assert Persists(attempts)[..|init|] == Persists(init);
      hide Next;
      UnsavedStep(cfg, Run(cfg, w0, Persists(init)), attempts[|init|]);
    }
  }

  lemma UnsavedStep(cfg: Config, w: World, a: Attempt)
    requires Inv(cfg, w) && (w.proc.Sent? || w.proc.Failed?) && a != Saved
    ensures var w' := Next(cfg, w, Persist(a));
      Inv(cfg, w') && TriesLeft(w'.proc) == TriesLeft(w.proc) - 1 && (w'.proc.Down? <==> TriesLeft(w'.proc) == -1)
      && (w'.proc.Down? || w'.proc.Sent? || w'.proc.Failed?)
      && (a != SavedUnreported ==> w'.db == w.db)
      && (a == SavedUnreported ==> w'.db == Next(cfg, w, Persist(Saved)).db)
  {
    hide Inv, Next, DoPersistSent, DoPersistFailed;
    SavedEither(cfg, w);
    if w.proc.Sent? {
      PersistSentIs(cfg, w, w.proc.tx, w.proc.tries, a);
      PersistSentStart(cfg, w, w.proc.tx, w.proc.tries);
      UnsavedSent(cfg, w, w.proc.tx, w.proc.tries, a);
    } else {
      PersistFailedIs(cfg, w, w.proc.tx, w.proc.makePending, w.proc.tries, a);
      PersistFailedStart(cfg, w, w.proc.tx, w.proc.makePending, w.proc.tries);
      UnsavedFailed(w, w.proc.tx, w.proc.makePending, w.proc.tries, a);
    }
  }

  lemma UnsavedSent(cfg: Config, w: World, t: Tx, tries: nat, a: Attempt)
    requires w.proc == Sent(t, tries) && a != Saved && SaveSent(cfg, w.db, t).Stored?
    ensures var w' := DoPersistSent(cfg, w, t, tries, a);
      && (if tries == 0 then w'.proc.Down? else w'.proc.Sent? && w'.proc.tries == tries - 1)
      && (a != SavedUnreported ==> w'.db == w.db)
  {
    hide SaveSent, Swallow;
  }

  lemma UnsavedFailed(w: World, t: Tx, makePending: bool, tries: nat, a: Attempt)
    requires w.proc == Failed(t, makePending, tries) && a != Saved && SaveFailed(w.db, t, makePending).Stored?
    ensures var w' := DoPersistFailed(w, t, makePending, tries, a);
      && (if tries == 0 then w'.proc.Down? else w'.proc.Failed? && w'.proc.tries == tries - 1)
      && (a != SavedUnreported ==> w'.db == w.db)
  {
    hide SaveFailed;
  }

  /** Whether the reply of a commit arrives makes no difference to the database. */
  lemma SavedEither(cfg: Config, w: World)
    requires Inv(cfg, w) && (w.proc.Sent? || w.proc.Failed?)
    ensures Next(cfg, w, Persist(SavedUnreported)).db == Next(cfg, w, Persist(Saved)).db
  {
    hide Inv, SaveSent, SaveFailed, Swallow;
  }
}
