/** The wallet updater as it is written: an object that reads and rewrites its tables in
    place, inside database transactions that may fail at any statement.  Every method of
    the updater loop is one or more steps of module WalletMachine.  The panic in
    Transaction.Update is an assertion here. */
module WalletMethods {
  import opened Types
  import opened Ledger
  import opened LedgerInvariant
  import opened WalletMachine
  import opened WalletInvariant
  import opened WalletSteps
  import opened WalletTheorems
  import opened WalletCalls
  import opened WithdrawalOutcomes
  import opened PollOutcomes
  import opened WithdrawalFrame
  import opened PendingPass
  import opened Scheduler

  /** What the database answers during one send: whether the account lookup works, how the
      commit of the lock or of an internal transfer ends, and how each attempt to save the
      outcome does. */
  datatype DbAnswers = DbAnswers(found: bool, commit: Commit, saves: nat -> Commit)

  /** When sendWithdrawal returns no error: a transfer between our accounts committed, or
      the node's answer was saved and was not an error to pass on. */
  predicate SendSucceeds(own: bool, t: Tx, reply: Reply, answers: DbAnswers) {
    && answers.found && answers.commit == Committed
    && if own then !(t.feeType == FixedFee && t.amount < t.fee)
       else
         && (t.feeType == PerKBRateFee || t.feeType == FixedFee)
         && SavedInTime(answers.saves)
         && (reply.Accepted? || (reply.insufficientFunds && !t.cold))
  }

  /** When sendWithdrawal stops the wallet: the outcome of a send could not be saved. */
  predicate SendStops(own: bool, t: Tx, answers: DbAnswers) {
    && answers.found && answers.commit == Committed && !own
    && (t.feeType == PerKBRateFee || t.feeType == FixedFee)
    && !SavedInTime(answers.saves)
  }

  /** When a withdraw request gets no error. */
  predicate WithdrawSucceeds(cfg: Config, db: Db, r: Request, toCold: bool, reply: Reply, answers: DbAnswers) {
    && Allowed(cfg, r, toCold) && r.id !in db.txs
    && if NeedsConfirmation(cfg, r, toCold) then answers.commit == Committed
       else SendSucceeds(AddressOf(cfg, r, toCold) in db.accounts, RecordOf(cfg, r, toCold), reply, answers)
  }

  /** When a confirm request gets no error. */
  predicate ConfirmSucceeds(db: Db, id: TxId, reply: Reply, answers: DbAnswers) {
    && id in db.txs && db.txs[id].status == PendingManual
    && SendSucceeds(db.txs[id].address in db.accounts, db.txs[id], reply, answers)
  }

  /** When a cancel request gets no error. */
  predicate CancelSucceeds(txs: map<TxId, Tx>, id: TxId, commit: Commit) {
    && id in txs && txs[id].status in {Pending, PendingColdStorage, PendingManual}
    && commit == Committed
  }

  /** When a withdrawal of a pass is sent without an error. */
  predicate DueSucceeds(
    rows: map<TxId, Tx>, accounts: set<string>, d: Due, replies: map<TxId, Reply>, answers: TxId -> DbAnswers)
  {
    && d.id in rows && d.id in replies
    && SendSucceeds(rows[d.id].address in accounts, rows[d.id], replies[d.id], answers(d.id))
  }

  /** When a pass runs to its end: the node told the balances, every withdrawal that the
      confirmed balance covers was sent, and the statuses were stored. */
  ghost predicate PassSucceeds(db: Db, s: seq<Due>, confirmed: int, replies: map<TxId, Reply>,
                               answered: bool, answers: TxId -> DbAnswers, commit: Commit)
  {
    && answered && commit == Committed
    && forall j :: 0 <= j < Taken(s, confirmed) ==> DueSucceeds(db.txs, db.accounts, s[j], replies, answers)
  }

  /** Every attempt to save ended the way the database answered. */
  predicate AttemptsMatch(trace: seq<Action>, saves: nat -> Commit) {
    forall k: nat :: k < |trace| ==>
      && trace[k].Persist?
      && (trace[k].attempt == Saved <==> saves(k) == Committed)
      && (trace[k].attempt == SavedUnreported <==> saves(k) == Unreported)
  }

  lemma AttemptsNone(saves: nat -> Commit)
    ensures AttemptsMatch([], saves)
  {
  }

  lemma AttemptsSnoc(trace: seq<Action>, saves: nat -> Commit, a: Attempt)
    requires AttemptsMatch(trace, saves)
    requires (a == Saved <==> saves(|trace|) == Committed) && (a == SavedUnreported <==> saves(|trace|) == Unreported)
    ensures AttemptsMatch(trace + [Persist(a)], saves)
  {
  }

  lemma NoSteps(cfg: Config, w: World)
    ensures Run(cfg, w, []) == w && LegalRun(cfg, w, [])
  {
  }

  /** A listing ends with the tables its loop leaves. */
  lemma ListingIs(cfg: Config, w: World, entries: seq<NodeTx>, lastBlock: string, ids: seq<TxId>, out: Commit, s: Scan)
    requires Inv(cfg, w) && w.proc.Idle? && ListingOk(w, entries, lastBlock, ids)
    requires out != Dropped ==> |ids| == |entries| && s.Scan? && ScanNew(cfg, Scan(w.db, w.past), entries, ids) == s
    ensures var w' := if out == Dropped then w
                      else w.(db := s.db.(lastBlock := lastBlock), past := s.past, listed := w.listed + entries);
      && Next(cfg, w, PollNew(entries, lastBlock, ids, out)) == w' && Inv(cfg, w')
      && (out != Dropped ==>
            ListingDone(cfg, w.db, w.past, w'.db.(lastBlock := w.db.lastBlock), w'.past, entries))
  {
    assert Legal(cfg, w, PollNew(entries, lastBlock, ids, out)) && |ids| == |entries|;
    hide *;
    PollNewIs(cfg, w, entries, lastBlock, ids, out, s);
    ListingOutcome(cfg, w, entries, lastBlock, ids, out);
  }

  /** A refresh may start, */
  lemma RefreshStart(cfg: Config, w: World, order: seq<TxId>, infos: map<string, Info>)
    requires Inv(cfg, w) && w.proc.Idle?
    requires forall i :: i in order <==> i in LessConfirmed(cfg, w.db.txs)
    requires forall j, k :: 0 <= j < k < |order| ==> order[j] != order[k]
    requires forall i :: i in LessConfirmed(cfg, w.db.txs) ==> w.db.txs[i].hash in infos
    ensures RefreshOk(cfg, w, order, infos) && Legal(cfg, w, PollKnown(order, infos, Committed))
    ensures DbOk(cfg, w.db, w.past)
    ensures forall k :: 0 <= k < |order| ==>
              order[k] in w.db.txs && w.db.txs[order[k]].hash != "" && w.db.txs[order[k]].hash in infos
    ensures var p := ScanKnown(cfg, Scan(w.db, w.past), order, infos); p.Scan? && p.db.lastBlock == w.db.lastBlock
  {
    hide Inv, DbOk, ScanKnown;
    PollKnownStart(cfg, w, order, infos);
    ScanKnownBlock(cfg, Scan(w.db, w.past), order, infos);
  }

  /** and ends with the tables its loop leaves. */
  lemma RefreshIs(cfg: Config, w: World, order: seq<TxId>, infos: map<string, Info>, out: Commit, s: Scan)
    requires Inv(cfg, w) && w.proc.Idle? && RefreshOk(cfg, w, order, infos)
    requires out != Dropped ==>
               s.Scan? && ScanKnown(cfg, Scan(w.db, w.past), order, infos) == s && s.db.lastBlock == w.db.lastBlock
    ensures var w' := if out == Dropped then w else w.(db := s.db, past := s.past);
      && Next(cfg, w, PollKnown(order, infos, out)) == w' && Inv(cfg, w')
      && (out != Dropped ==> RefreshDone(cfg, w.db, w.past, w'.db, w'.past, order, infos))
  {
    assert Legal(cfg, w, PollKnown(order, infos, out));
    hide *;
    PollKnownIs(cfg, w, order, infos, out, s);
    RefreshOutcome(cfg, w, order, infos, out);
  }

  lemma CancellableIs(txs: map<TxId, Tx>, id: TxId)
    ensures Cancellable(txs, id) <==> id in txs && txs[id].status in {Pending, PendingColdStorage, PendingManual}
  {
  }

  lemma CancelledRow(cfg: Config, w: World, id: TxId, out: Commit)
    requires Inv(cfg, w) && w.proc.Idle? && Cancellable(w.db.txs, id)
    ensures out != Dropped ==>
              var w' := Next(cfg, w, Cancel(id, out));
              id in w'.db.txs && w'.db.txs[id] == w.db.txs[id].(status := Cancelled)
  {
    hide Inv, Next;
    CancelOutcome(cfg, w, id, out);
    StoredIsUnsent(cfg, w, id);
  }

  /** A withdrawal to a foreign address up to the call to the node. */
  lemma ForeignStart(cfg: Config, w: World, t: Tx, out: Commit, newId: TxId, reply: Reply)
    requires Ready(cfg, w, t, newId, reply) && t.address !in w.db.accounts
    ensures var w' := Dispatch(cfg, w, t, out, newId);
      && Inv(cfg, w')
      && (if t.feeType == InvalidFee || out == Dropped then w' == w
          else if out == Unreported then w' == w.(db := w.db.(lock := Some(t)))
          else w' == w.(db := w.db.(lock := Some(t)), proc := Locked(t)))
      && (reply.Accepted? ==> FreshHash(w', reply.hash))
  {
    DispatchIs(cfg, w, t, out, newId, reply);
    hide Inv, InternalTransfer, UnsentRecord, FreshId;
  }

  lemma SameAccounts(w: World, w': World, id: TxId, newId: TxId, hashes: set<string>)
    requires Touched(w, w', id, newId, hashes)
    ensures w'.db.accounts == w.db.accounts
  {
    assert w'.db.(txs := w.db.txs, events := w.db.events, lock := w.db.lock).accounts == w'.db.accounts;
  }

  class Wallet {
    const cfg: Config
    /** While the connection is healthy no statement fails; otherwise any may. */
    const healthy: bool
    var db: Db
    ghost var sent: seq<Broadcast>
    ghost var chain: seq<Block>
    ghost var confirmed: set<TxId>
    ghost var past: Past
    ghost var listed: seq<NodeTx>
    ghost var moved: seq<Move>

    ghost function View(proc: Process): World
      reads this
    {
      World(db, proc, sent, chain, confirmed, past, false, listed, moved)
    }

    /** Check and Run: a process starts only on a database whose wallet lock is clear. */
    constructor (cfg: Config, healthy: bool, w: World)
      requires Inv(cfg, w) && w.proc.Down? && w.db.lock.None?
      ensures this.cfg == cfg && this.healthy == healthy
      ensures View(Idle) == Next(cfg, w, Restart) && Inv(cfg, View(Idle))
    {
      this.cfg, this.healthy := cfg, healthy;
      db, sent, chain, confirmed, past := w.db, w.sent, w.chain, w.confirmed, w.past;
      listed, moved := w.listed, w.moved;
      new;
      StepKeeps(cfg, w, Restart);
      hide *;
      NoPanic(cfg, w);
    }

    // ------------------------------------------------------ statements on the tables

    method Statement() returns (ok: bool)
      ensures healthy ==> ok
    {
      ok := *;
      ok := ok || healthy;
    }

    /** StoreTransaction: update the row found by id, else the row found by hash,
        direction and address, else insert one. */
    method StoreTransaction(t: Tx, newId: TxId) returns (ok: bool, r: Tx)
      requires OneMatch(db.txs, t) && Store(db, t, newId).Stored?
      modifies this`db
      ensures ok ==> Store(old(db), t, newId) == Stored(db, r)
      ensures healthy ==> ok
    {
      r := t;
      ok := Statement();
      if !ok {
        return;
      }
      var txIsNew, i := true, NIL_ID;
      if t.id != NIL_ID && t.id in db.txs {
        txIsNew, i := false, t.id;
      }
      if txIsNew && t.hash != "" {
        if k :| k in db.txs && SameKey(db.txs[k], t) {
          txIsNew, i := false, k;
        }
      }
      assert Existing(db.txs, t) == if txIsNew then None else Some(i);
      if !txIsNew {
        var row := db.txs[i];
        assert row.hash == "" || row.hash == t.hash;
        r := row.(hash := t.hash, blockHash := t.blockHash, confirmations := t.confirmations, status := t.status);
        db := db.(txs := db.txs[i := r]);
        return;
      }
      r := if t.id == NIL_ID then t.(id := newId) else t;
      db := db.(txs := db.txs[r.id := r]);
    }

    /** notifyTransaction: one event per missing confirmation number.  A failing
        statement leaves the caller's record where the loop stopped. */
    method NotifyTransaction(t: Tx) returns (ok: bool, t': Tx)
      modifies this`db
      ensures ok ==> db == Notify(cfg, old(db), t) && t'.reported == Max(t.reported, Top(cfg, t))
      ensures t' == t.(reported := t'.reported) && t.reported <= t'.reported <= Max(t.reported, Top(cfg, t))
      ensures healthy ==> ok
    {
      t' := t;
      var top := Min(t.confirmations, cfg.maxConfirmations);
      var i := t.reported + 1;
      while i <= top
        invariant t.reported + 1 <= i && (i <= top + 1 || i == t.reported + 1)
        invariant t' == t.(reported := i - 1)
        invariant db == ReportedBelow(cfg, old(db), t, i)
      {
        ReportOneMore(cfg, old(db), t, i);
        var notification := t'.(confirmations := i);
        if i == 0 {
          notification := notification.(blockHash := "");
        }
        notification := WithStatus(cfg, notification);
        assert Event(KindFor(t.direction, i), notification) == Report(cfg, t, i);
        hide Report, WithStatus, ReportedBelow, SetReported, KindFor;
        ok := Statement();
        if !ok {
          return;
        }
        db := db.(events := db.events + [Event(KindFor(t.direction, i), notification)]);
        ok := Statement();
        if !ok {
          return;
        }
        db := db.(txs := SetReported(db.txs, t.id, i));
        t' := t'.(reported := i);
        i := i + 1;
      }
      ok := true;
    }

    /** updateTxInfo: the record the node gave, stored and reported. */
    method TakeTxInfo(t: Tx, newId: TxId) returns (ok: bool, r: Tx)
      requires OneMatch(db.txs, t) && UpdateTxInfo(cfg, db, t, newId).Stored?
      modifies this`db
      ensures ok ==> UpdateTxInfo(cfg, old(db), t, newId) == Stored(db, r)
      ensures healthy ==> ok
    {
      ok, r := StoreTransaction(WithStatus(cfg, t), newId);
      if ok && t.address != cfg.hotAddress && !r.cold {
        var r';
        ok, r' := NotifyTransaction(r);
      }
    }

    /** updatePendingTxStatus. */
    method SetPendingStatus(t: Tx, s: Status) returns (ok: bool)
      requires t.hash == "" && UpdatePendingTxStatus(db, t, s).Stored?
      modifies this`db
      ensures ok ==> UpdatePendingTxStatus(old(db), t, s).Stored? && UpdatePendingTxStatus(old(db), t, s).db == db
      ensures healthy ==> ok
    {
      if s == t.status {
        return true;
      }
      var r;
      ok, r := StoreTransaction(t.(status := s), t.id);
      if !ok {
        return;
      }
      ok := Statement();
      if ok {
        var kind := if s == Cancelled then PendingTxCancelled else PendingStatusUpdated;
        db := db.(events := db.events + [Event(kind, t.(status := s))]);
      }
    }

    // --------------------------------------------------------------------- polling

    /** The loop over a listing. */
    method ScanListing(entries: seq<NodeTx>, ids: seq<TxId>) returns (ok: bool, ghost now: Past)
      requires DbOk(cfg, db, past) && EntriesOk(Scan(db, past), entries, ids)
      modifies this`db
      ensures ok ==> |entries| == |ids| && ScanNew(cfg, Scan(old(db), past), entries, ids) == Scan(db, now)
      ensures healthy ==> ok
    {
      ghost var s := Scan(db, past);
      now := past;
      hide UpdateTxInfo, TakeIn, DbOk, EntriesOk, OneMatch, FromNode;
      SameLength(s, entries, ids);
      var n := 0;
      while n < |entries|
        invariant n <= |entries| == |ids|
        invariant ScanNew(cfg, s, entries[..n], ids[..n]) == Scan(db, now)
      {
        ScanNewAt(cfg, s, entries, ids, n);
        ghost var p := Scan(db, now);
        var t := FromNode(entries[n]);
        var r;
        hide ScanNew;
        ok, r := TakeTxInfo(t, ids[n]);
        if !ok {
          return;
        }
        TakeInIs(cfg, p, t, ids[n], db, r);
        now := now.(polled := now.polled + [Poll(r.id, t.confirmations)]);
        n := n + 1;
      }
      assert entries[..n] == entries && ids[..n] == ids;
      ok := true;
    }

    /** checkForNewTransactions.  `entries` and `lastBlock` are the node's answer, `ids` the
        ids an insert would draw, and `commit` is how the commit ends. */
    method CheckForNewTransactions(entries: seq<NodeTx>, lastBlock: string, ids: seq<TxId>, commit: Commit)
      returns (out: Commit)
      requires Inv(cfg, View(Idle)) && ListingOk(View(Idle), entries, lastBlock, ids)
      modifies this`db, this`past, this`listed
      ensures View(Idle) == Next(cfg, old(View(Idle)), PollNew(entries, lastBlock, ids, out))
      ensures out == commit || out == Dropped
      ensures healthy ==> out == commit
      ensures out.Dropped? ==> db == old(db) && past == old(past)
      ensures !out.Dropped? ==>
                db.lastBlock == lastBlock
                && ListingDone(cfg, old(db), old(past), db.(lastBlock := old(db).lastBlock), past, entries)
      ensures Inv(cfg, View(Idle))
    {
      var before := db;
      ghost var w := View(Idle);
      hide Inv, Next, ListingOk, DbOk, EntriesOk, ScanNew, ListingDone;
      PollNewStart(cfg, w, entries, lastBlock, ids);
      ghost var now;
      var ok;
      ok, now := ScanListing(entries, ids);
      out := if ok then commit else Dropped;
      ListingIs(cfg, w, entries, lastBlock, ids, out, Scan(db, now));
      if out.Dropped? {
        db := before;
      } else {
        db := db.(lastBlock := lastBlock);
        past := now;
        listed := listed + entries;
      }
    }

    /** GetBroadcastedTransactionsWithLessConfirmations, in any order. */
    method LessConfirmedRows() returns (order: seq<TxId>)
      ensures forall i :: i in order <==> i in LessConfirmed(cfg, db.txs)
      ensures forall i :: i in order <==> StillGaining(cfg, db.txs, i)
      ensures forall m, n :: 0 <= m < n < |order| ==> order[m] != order[n]
    {
      order := [];
      var left := LessConfirmed(cfg, db.txs);
      while left != {}
        invariant left <= LessConfirmed(cfg, db.txs)
        invariant forall i :: i in order <==> i in LessConfirmed(cfg, db.txs) && i !in left
        invariant forall m, n :: 0 <= m < n < |order| ==> order[m] != order[n]
        decreases left
      {
        var i :| i in left;
        order, left := order + [i], left - {i};
      }
    }

    /** The loop over the rows still gaining confirmations, as they were read before it. */
    method RefreshRows(order: seq<TxId>, infos: map<string, Info>) returns (ok: bool, ghost now: Past)
      requires DbOk(cfg, db, past)
      requires forall k :: 0 <= k < |order| ==>
                 order[k] in db.txs && db.txs[order[k]].hash != "" && db.txs[order[k]].hash in infos
      requires forall j, k :: 0 <= j < k < |order| ==> order[j] != order[k]
      modifies this`db
      ensures ok ==> ScanKnown(cfg, Scan(old(db), past), order, infos) == Scan(db, now)
      ensures healthy ==> ok
    {
      ghost var s := Scan(db, past);
      var rows := db.txs;
      now := past;
      hide UpdateTxInfo, TakeIn, DbOk, OneMatch, Refreshed;
      var n := 0;
      while n < |order|
        invariant n <= |order|
        invariant ScanKnown(cfg, s, order[..n], infos) == Scan(db, now)
      {
        ScanKnownAt(cfg, s, order, infos, n);
        ghost var p := Scan(db, now);
        var t := Refreshed(rows[order[n]], infos);
        var r;
        hide ScanKnown;
        ok, r := TakeTxInfo(t, NIL_ID);
        if !ok {
          return;
        }
        TakeInIs(cfg, p, t, NIL_ID, db, r);
        now := now.(polled := now.polled + [Poll(r.id, t.confirmations)]);
        n := n + 1;
      }
      assert order[..n] == order;
      ok := true;
    }

    /** checkForExistingTransactionUpdates; `infos` is what the node would answer for
        each hash. */
    method CheckForExistingTransactionUpdates(infos: map<string, Info>, commit: Commit)
      returns (out: Commit, order: seq<TxId>)
      requires Inv(cfg, View(Idle))
      requires forall i :: i in LessConfirmed(cfg, db.txs) ==> db.txs[i].hash in infos
      modifies this`db, this`past
      ensures RefreshOk(cfg, old(View(Idle)), order, infos)
      ensures View(Idle) == Next(cfg, old(View(Idle)), PollKnown(order, infos, out))
      ensures out == commit || out == Dropped
      ensures healthy ==> out == commit
      ensures out.Dropped? ==> db == old(db) && past == old(past)
      ensures forall i :: i in order <==> StillGaining(cfg, old(db.txs), i)
      ensures !out.Dropped? ==> RefreshDone(cfg, old(db), old(past), db, past, order, infos)
      ensures Inv(cfg, View(Idle))
    {
      var before := db;
      ghost var w := View(Idle);
      hide Inv, Next, LessConfirmed, StillGaining, DbOk, ScanKnown, RefreshDone, RefreshOk;
      order := LessConfirmedRows();
      RefreshStart(cfg, w, order, infos);
      ghost var now;
      var ok;
      ok, now := RefreshRows(order, infos);
      out := if ok then commit else Dropped;
      RefreshIs(cfg, w, order, infos, out, Scan(db, now));
      if out.Dropped? {
        db := before;
      } else {
        past := now;
      }
    }

    // ------------------------------------------------------------- pending requests

    /** cancelPendingTx. */
    method CancelPendingTx(id: TxId, commit: Commit) returns (ok: bool, ghost out: Commit)
      requires Inv(cfg, View(Idle))
      modifies this`db
      ensures View(Idle) == Next(cfg, old(View(Idle)), Cancel(id, out))
      ensures Inv(cfg, View(Idle))
      ensures out == commit || out == Dropped
      ensures healthy ==> out == commit
      ensures ok <==> id in old(db.txs) && old(db.txs)[id].status in {Pending, PendingColdStorage, PendingManual}
                      && out == Committed
      ensures ok ==> id in db.txs && db.txs[id] == old(db.txs)[id].(status := Cancelled)
    {
      ghost var w := View(Idle);
      hide Inv, Next, Cancellable, UpdatePendingTxStatus;
      var before := db;
      CancellableIs(db.txs, id);
      if !Cancellable(db.txs, id) {
        CancelIs(cfg, w, id, commit);
        return false, commit;
      }
      CancelStart(cfg, w, id);
      ok := SetPendingStatus(db.txs[id], Cancelled);
      out := if ok then commit else Dropped;
      CancelIs(cfg, w, id, out);
      CancelledRow(cfg, w, id, out);
      if !ok || commit.Dropped? {
        db := before;
      }
      ok := ok && commit.Committed?;
    }

    // ----------------------------------------------------------------- withdrawals

    method StoreAndReport(t: Tx, newId: TxId) returns (ok: bool, r: Tx)
      requires t.hash == "" && StoreAndNotify(cfg, db, t, newId).Stored?
      modifies this`db
      ensures ok ==> StoreAndNotify(cfg, old(db), t, newId) == Stored(db, r)
      ensures healthy ==> ok
    {
      ok, r := StoreTransaction(t, newId);
      if ok {
        var r';
        ok, r' := NotifyTransaction(r);
      }
    }

    /** The body of the transaction in internalWithdrawBetweenOurAccounts. */
    method TransferBody(t: Tx, newId: TxId) returns (ok: bool)
      requires t.hash == "" && EffectiveFee(t) <= t.amount
      requires !t.cold ==> StoreAndNotify(cfg, db, TransferOut(cfg, t), t.id).Stored?
      requires var db1 := if t.cold then db else StoreAndNotify(cfg, db, TransferOut(cfg, t), t.id).db;
        StoreAndNotify(cfg, db1, TransferIn(cfg, t), newId).Stored?
      modifies this`db
      ensures ok ==> InternalTransfer(cfg, old(db), t, newId).Stored? && InternalTransfer(cfg, old(db), t, newId).db == db
      ensures healthy ==> ok
    {
      hide StoreAndNotify;
      var tx := if t.feeType == FixedFee then t else t.(fee := 0);
      tx := tx.(confirmations := cfg.maxConfirmations, status := FullyConfirmed);
      var r;
      if !tx.cold {
        ok, r := StoreAndReport(tx, tx.id);
        if !ok {
          return;
        }
      }
      tx := tx.(reported := -1, direction := Incoming, id := NIL_ID, amount := tx.amount - tx.fee);
      ok, r := StoreAndReport(tx, newId);
    }

    /** internalWithdrawBetweenOurAccounts. */
    method InternalWithdraw(t: Tx, newId: TxId, commit: Commit, ghost reply: Reply) returns (ok: bool, ghost out: Commit)
      requires Ready(cfg, View(Idle), t, newId, reply) && t.address in db.accounts
      modifies this`db, this`moved
      ensures View(Idle) == Dispatch(cfg, old(View(Idle)), t, out, newId)
      ensures out == commit || out == Dropped
      ensures healthy ==> out == commit
      ensures ok <==> out == Committed && !(t.feeType == FixedFee && t.amount < t.fee)
    {
      var fee := if t.feeType == FixedFee then t.fee else 0;
      if t.amount < fee {
        return false, commit;
      }
      ghost var w := View(Idle);
      TransferStart(cfg, w, t, newId, reply);
      hide InternalTransfer, StoreAndNotify, TransferIn, TransferOut, Ready;
      var before := db;
      ok := TransferBody(t, newId);
      out := if ok then commit else Dropped;
      if !ok || commit.Dropped? {
        db := before;
      } else {
        moved := moved + [Move(t.id, t.cold)];
      }
      ok := ok && commit.Committed?;
    }

    /** The closure in handleWithdrawalSuccess: the caller's record keeps what notifying
        did to it even when the transaction is rolled back. */
    method SaveSentBody(t: Tx) returns (ok: bool, t': Tx)
      requires OneMatch(db.txs, t) && Store(db, t, t.id).Stored?
      requires Top(cfg, t) == 0 && -1 <= t.reported <= 0
      modifies this`db
      ensures ok ==> SaveSent(cfg, old(db), t) == Stored(db, t')
      ensures t' == t || t' == AfterNotify(cfg, t)
      ensures healthy ==> ok
    {
      var r;
      t' := t;
      ok, r := StoreTransaction(t, t.id);
      if ok && !t.cold {
        ok, t' := NotifyTransaction(t);
      }
      if ok {
        ok := Statement();
        db := db.(lock := None);
      }
    }

    /** One attempt to save a withdrawal the node has accepted. */
    method SaveSentOnce(t: Tx, tries: nat, commit: Commit) returns (a: Attempt, t': Tx)
      requires Inv(cfg, View(Sent(t, tries)))
      modifies this`db, this`past
      ensures View(if a.Saved? then Idle else AgainSent(t', tries)) == Next(cfg, old(View(Sent(t, tries))), Persist(a))
      ensures Inv(cfg, View(if a.Saved? then Idle else AgainSent(t', tries)))
      ensures (a == Saved ==> commit == Committed) && (a == SavedUnreported ==> commit == Unreported)
      ensures healthy ==> (a == Saved <==> commit == Committed) && (a == SavedUnreported <==> commit == Unreported)
    {
      ghost var w := View(Sent(t, tries));
      var before := db;
      PersistSentStart(cfg, w, t, tries);
      hide Inv, Next, Store, Notify, OneMatch, SaveSent, AfterNotify, Swallow, AgainSent;
      var ok;
      ok, t' := SaveSentBody(t);
      if !ok || commit.Dropped? {
        db := before;
        a := NotSaved(t' != t);
        past := if t' != t then Swallow(past, db.txs, t) else past;
      } else {
        a := if commit.Committed? then Saved else SavedUnreported;
      }
      PersistSentIs(cfg, w, t, tries, a);
    }

    /** One run of the closure in handleWithdrawalError, which works on a copy. */
    method SaveFailedOnce(t: Tx, makePending: bool, tries: nat, commit: Commit) returns (a: Attempt)
      requires Inv(cfg, View(Failed(t, makePending, tries)))
      modifies this`db
      ensures View(if a.Saved? then Idle else AgainFailed(t, makePending, tries))
           == Next(cfg, old(View(Failed(t, makePending, tries))), Persist(a))
      ensures Inv(cfg, View(if a.Saved? then Idle else AgainFailed(t, makePending, tries)))
      ensures (a == Saved ==> commit == Committed) && (a == SavedUnreported ==> commit == Unreported)
      ensures healthy ==> (a == Saved <==> commit == Committed) && (a == SavedUnreported <==> commit == Unreported)
    {
      ghost var w := View(Failed(t, makePending, tries));
      var before := db;
      PersistFailedStart(cfg, w, t, makePending, tries);
      hide Inv, Next, UpdatePendingTxStatus;
      var ok := true;
      if makePending {
        ok := SetPendingStatus(t, Pending);
      }
      if ok {
        ok := Statement();
        db := db.(lock := None);
      }
      if !ok || commit.Dropped? {
        db := before;
        a := NotSaved(false);
      } else {
        a := if commit.Committed? then Saved else SavedUnreported;
      }
      PersistFailedIs(cfg, w, t, makePending, tries, a);
    }

    /** persistWithdrawResultWithRetry around the success closure; running out of
        retries stops the wallet with its lock as it is. */
    method HandleWithdrawalSuccess(t: Tx, saves: nat -> Commit) returns (next: Process, ghost trace: seq<Action>)
      requires Inv(cfg, View(Sent(t, SAVE_RETRIES)))
      modifies this`db, this`past
      ensures next.Idle? || next.Down?
      ensures forall a :: a in trace ==> a.Persist?
      ensures next.Down? ==> |trace| == 11
      ensures next.Idle? ==> 1 <= |trace| <= 11 && saves(|trace| - 1) == Committed
      ensures healthy ==> AttemptsMatch(trace, saves) && (next.Idle? <==> SavedInTime(saves))
      ensures LegalRun(cfg, old(View(Sent(t, SAVE_RETRIES))), trace)
      ensures Run(cfg, old(View(Sent(t, SAVE_RETRIES))), trace) == View(next) && Inv(cfg, View(next))
    {
      ghost var from := View(Sent(t, SAVE_RETRIES));
      hide Inv, Next, Legal, Run, LegalRun, AttemptsMatch, SavedInTime;
      AttemptsNone(saves);
      NoSteps(cfg, from);
      var tx, left := t, SAVE_RETRIES;
      trace := [];
      while true
        invariant 0 <= left <= SAVE_RETRIES && |trace| == SAVE_RETRIES - left
        invariant forall a :: a in trace ==> a.Persist?
        invariant healthy ==> AttemptsMatch(trace, saves) && forall k: nat :: k < |trace| ==> saves(k) != Committed
        invariant LegalRun(cfg, from, trace) && Run(cfg, from, trace) == View(Sent(tx, left))
        invariant Inv(cfg, View(Sent(tx, left)))
        decreases left
      {
        var a, tx' := SaveSentOnce(tx, left, saves(SAVE_RETRIES - left));
        RunSnoc(cfg, from, trace, Persist(a));
        PersistIsLegal(cfg, Run(cfg, from, trace), a);
        if healthy {
          AttemptsSnoc(trace, saves, a);
        }
        trace := trace + [Persist(a)];
        if a.Saved? {
          InTime(saves, |trace| - 1);
          return Idle, trace;
        }
        if left == 0 {
          if healthy {
            NotInTime(saves);
          }
          return Down, trace;
        }
        tx, left := tx', left - 1;
      }
    }

    /** persistWithdrawResultWithRetry around the error closure. */
    method HandleWithdrawalError(t: Tx, makePending: bool, saves: nat -> Commit)
      returns (next: Process, ghost trace: seq<Action>)
      requires Inv(cfg, View(Failed(t, makePending, SAVE_RETRIES)))
      modifies this`db
      ensures next.Idle? || next.Down?
      ensures forall a :: a in trace ==> a.Persist?
      ensures next.Down? ==> |trace| == 11
      ensures next.Idle? ==> 1 <= |trace| <= 11 && saves(|trace| - 1) == Committed
      ensures healthy ==> AttemptsMatch(trace, saves) && (next.Idle? <==> SavedInTime(saves))
      ensures LegalRun(cfg, old(View(Failed(t, makePending, SAVE_RETRIES))), trace)
      ensures Run(cfg, old(View(Failed(t, makePending, SAVE_RETRIES))), trace) == View(next) && Inv(cfg, View(next))
    {
      ghost var from := View(Failed(t, makePending, SAVE_RETRIES));
      hide Inv, Next, Legal, Run, LegalRun, AttemptsMatch, SavedInTime;
      AttemptsNone(saves);
      NoSteps(cfg, from);
      var left := SAVE_RETRIES;
      trace := [];
      while true
        invariant 0 <= left <= SAVE_RETRIES && |trace| == SAVE_RETRIES - left
        invariant forall a :: a in trace ==> a.Persist?
        invariant healthy ==> AttemptsMatch(trace, saves) && forall k: nat :: k < |trace| ==> saves(k) != Committed
        invariant LegalRun(cfg, from, trace) && Run(cfg, from, trace) == View(Failed(t, makePending, left))
        invariant Inv(cfg, View(Failed(t, makePending, left)))
        decreases left
      {
        var a := SaveFailedOnce(t, makePending, left, saves(SAVE_RETRIES - left));
        RunSnoc(cfg, from, trace, Persist(a));
        PersistIsLegal(cfg, Run(cfg, from, trace), a);
        if healthy {
          AttemptsSnoc(trace, saves, a);
        }
        trace := trace + [Persist(a)];
        if a.Saved? {
          InTime(saves, |trace| - 1);
          return Idle, trace;
        }
        if left == 0 {
          if healthy {
            NotInTime(saves);
          }
          return Down, trace;
        }
        left := left - 1;
      }
    }

    /** From the node's reply on, with the lock committed. */
    method AfterLock(t: Tx, reply: Reply, saves: nat -> Commit) returns (next: Process, ghost trace: seq<Action>)
      requires Inv(cfg, View(Locked(t))) && (reply.Accepted? ==> FreshHash(View(Locked(t)), reply.hash))
      modifies this`db, this`past, this`sent
      ensures next.Idle? || next.Down?
      ensures next.Idle? ==> SavedInTime(saves)
      ensures healthy ==> (next.Idle? <==> SavedInTime(saves))
      ensures healthy ==> trace != [] && AttemptsMatch(trace[1..], saves)
      ensures forall a :: a in trace ==> SendStep(a, reply)
      ensures LegalRun(cfg, old(View(Locked(t))), trace)
      ensures Run(cfg, old(View(Locked(t))), trace) == View(next) && Inv(cfg, View(next))
    {
      hide Inv, Next, Legal, Run, LegalRun, FreshHash, SentAfter, SavedInTime, AttemptsMatch;
      ghost var from := View(Locked(t));
      ReplyIs(cfg, from, t, reply);
      sent := SentAfter(sent, t, reply);
      ghost var replied := View(Replied(t, reply));
      ghost var more;
      match reply {
        case Accepted(hash) =>
          next, more := HandleWithdrawalSuccess(t.(status := New, hash := hash), saves);
        case Refused(insufficientFunds) =>
          next, more := HandleWithdrawalError(t, insufficientFunds && !t.cold, saves);
      }
      assert Run(cfg, replied, more) == View(next) && LegalRun(cfg, replied, more);
      RunAppend(cfg, from, [NodeReplies(reply)], more);
      trace := [NodeReplies(reply)] + more;
      assert trace[1..] == more;
      if next.Idle? {
        InTime(saves, |more| - 1);
      }
    }

    /** sendWithdrawal; `ok` says that it returned no error. */
    method SendWithdrawal(t: Tx, newId: TxId, reply: Reply, answers: DbAnswers)
      returns (ok: bool, next: Process, ghost out: Commit, ghost trace: seq<Action>)
      requires Ready(cfg, View(Idle), t, newId, reply)
      modifies this`db, this`past, this`sent, this`moved
      ensures next.Idle? || next.Down?
      ensures ok ==> SendSucceeds(t.address in old(db.accounts), t, reply, answers) && next.Idle?
      ensures next.Down? ==> answers.found && answers.commit == Committed
      ensures healthy ==> (ok <==> SendSucceeds(t.address in old(db.accounts), t, reply, answers))
      ensures healthy ==> (next.Down? <==> SendStops(t.address in old(db.accounts), t, answers))
      ensures out == Dropped || (out == answers.commit && answers.found)
      ensures healthy && answers.found ==> out == answers.commit
      ensures healthy && trace != [] ==> AttemptsMatch(trace[1..], answers.saves)
      ensures forall a :: a in trace ==> SendStep(a, reply)
      ensures LegalRun(cfg, Dispatch(cfg, old(View(Idle)), t, out, newId), trace)
      ensures Run(cfg, Dispatch(cfg, old(View(Idle)), t, out, newId), trace) == View(next) && Inv(cfg, View(next))
    {
      hide Inv, Next, Legal, Ready, Dispatch, FreshHash, SavedInTime;
      ghost var w := View(Idle);
      ok, next, out, trace := false, Idle, Dropped, [];
      if !answers.found {
        DispatchDropped(cfg, w, t, newId, reply);
        ReadyIs(cfg, w, t, newId, reply);
        return;
      }
      if t.address in db.accounts {
        ok, out := InternalWithdraw(t, newId, answers.commit, reply);
        DispatchIs(cfg, w, t, out, newId, reply);
        return;
      }
      ForeignStart(cfg, w, t, answers.commit, newId, reply);
      out := answers.commit;
      match t.feeType {
        case PerKBRateFee =>
        case FixedFee =>
        case InvalidFee => return;
      }
      if answers.commit.Dropped? {
        return;
      }
      db := db.(lock := Some(t));
      if answers.commit.Committed? {
        next, trace := AfterLock(t, reply, answers.saves);
        ok := next == Idle && (reply.Accepted? || (reply.insufficientFunds && !t.cold));
      }
    }

    /** checkWithdrawLimits: whether the request is allowed, and whether to hold it. */
    method CheckWithdrawLimits(r: Request) returns (ok: bool, hold: bool)
      ensures ok <==> r.amount >= cfg.minWithdraw
                      && (r.feeType == PerKBRateFee ==> r.fee >= cfg.minFeePerKb)
                      && (r.feeType == FixedFee ==> r.fee >= cfg.minFeeFixed)
      ensures ok ==> hold == (r.amount > cfg.holdAbove)
    {
      if r.amount < cfg.minWithdraw {
        return false, false;
      }
      var minFee := if r.feeType == PerKBRateFee then cfg.minFeePerKb
                    else if r.feeType == FixedFee then cfg.minFeeFixed else 0;
      if r.fee < minFee {
        return false, false;
      }
      return true, r.amount > cfg.holdAbove;
    }

    /** The checks of Withdraw, up to the request handed to the updater. */
    method PrepareWithdrawal(r: Request, toCold: bool) returns (ok: bool, t: Tx, hold: bool)
      ensures ok <==> Allowed(cfg, r, toCold)
      ensures ok ==> t == RecordOf(cfg, r, toCold) && (hold <==> NeedsConfirmation(cfg, r, toCold))
    {
      var address := r.address;
      t := Tx(r.id, "", "", 0, address, Outgoing, New, r.amount, r.fee, r.feeType, toCold, -1);
      ok, hold := true, false;
      if !toCold {
        ok, hold := CheckWithdrawLimits(r);
        if !ok {
          return;
        }
      }
      if address == "" {
        if !toCold || cfg.coldAddress == "" {
          ok := false;
          return;
        }
        address := cfg.coldAddress;
      }
      ok := address != cfg.hotAddress;
      t := t.(address := address);
      hold := !toCold && hold;
    }

    /** holdWithdrawalUntilConfirmed. */
    method HoldWithdrawal(t: Tx, commit: Commit) returns (ok: bool, ghost out: Commit)
      requires t.hash == "" && UpdatePendingTxStatus(db, t, PendingManual).Stored?
      modifies this`db
      ensures View(Idle) == Transact(old(View(Idle)), UpdatePendingTxStatus(old(db), t, PendingManual), out)
      ensures out == commit || out == Dropped
      ensures healthy ==> out == commit
      ensures ok <==> out == Committed
    {
      hide UpdatePendingTxStatus;
      var before := db;
      ok := SetPendingStatus(t, PendingManual);
      out := if ok then commit else Dropped;
      if !ok || commit.Dropped? {
        db := before;
      }
      ok := ok && commit.Committed?;
    }

    /** Withdraw and withdraw, from the request to its outcome; `ok` says that the
        requester gets no error. */
    method HandleWithdraw(r: Request, toCold: bool, newId: TxId, reply: Reply, answers: DbAnswers)
      returns (ok: bool, next: Process, ghost out: Commit, ghost trace: seq<Action>)
      requires Inv(cfg, View(Idle)) && r.id != NIL_ID && Offered(View(Idle), r.id, newId, reply)
      modifies this`db, this`past, this`sent, this`moved
      ensures next.Idle? || next.Down?
      ensures ok ==> WithdrawSucceeds(cfg, old(db), r, toCold, reply, answers)
      ensures healthy ==> (ok <==> WithdrawSucceeds(cfg, old(db), r, toCold, reply, answers))
      ensures out == answers.commit || out == Dropped
      ensures healthy && (answers.found || NeedsConfirmation(cfg, r, toCold)) ==> out == answers.commit
      ensures healthy && trace != [] ==> AttemptsMatch(trace[1..], answers.saves)
      ensures LegalRun(cfg, old(View(Idle)), [Withdraw(r, toCold, out, newId)] + trace)
      ensures Run(cfg, old(View(Idle)), [Withdraw(r, toCold, out, newId)] + trace) == View(next)
      ensures Inv(cfg, View(next))
    {
      hide Inv, Next, Legal, Ready, UnsentRecord, Admit, Dispatch, Transact, UpdatePendingTxStatus, SendSucceeds, Allowed,
        AttemptsMatch, SendStops;
      ghost var w := View(Idle);
      next, out, trace := Idle, answers.commit, [];
      var t, hold;
      ok, t, hold := PrepareWithdrawal(r, toCold);
      AdmitIs(cfg, r, toCold);
      ok := ok && r.id !in db.txs;
      if ok {
        if hold {
          HeldStart(cfg, w, r, toCold);
          ok, out := HoldWithdrawal(t, answers.commit);
        } else {
          AdmittedReady(cfg, w, r, toCold, newId, reply);
          ok, next, out, trace := SendWithdrawal(t, newId, reply, answers);
        }
      }
      WithdrawRun(cfg, w, r, toCold, out, newId, trace);
    }

    /** confirmPendingTx; `ok` says that the requester gets no error. */
    method ConfirmPendingTx(id: TxId, newId: TxId, reply: Reply, answers: DbAnswers)
      returns (ok: bool, next: Process, ghost out: Commit, ghost trace: seq<Action>)
      requires Inv(cfg, View(Idle)) && Offered(View(Idle), id, newId, reply)
      modifies this`db, this`past, this`sent, this`moved, this`confirmed
      ensures next.Idle? || next.Down?
      ensures ok ==> ConfirmSucceeds(old(db), id, reply, answers)
      ensures healthy ==> (ok <==> ConfirmSucceeds(old(db), id, reply, answers))
      ensures out == answers.commit || out == Dropped
      ensures healthy && answers.found ==> out == answers.commit
      ensures healthy && trace != [] ==> AttemptsMatch(trace[1..], answers.saves)
      ensures LegalRun(cfg, old(View(Idle)), [Confirm(id, out, newId)] + trace)
      ensures Run(cfg, old(View(Idle)), [Confirm(id, out, newId)] + trace) == View(next)
      ensures Inv(cfg, View(next))
    {
      hide Inv, Next, Legal, Ready, UnsentRecord, Dispatch, SendSucceeds, AttemptsMatch, SendStops;
      ghost var w := View(Idle);
      ok, next, out, trace := false, Idle, answers.commit, [];
      if id in db.txs && db.txs[id].status == PendingManual {
        ConfirmedReady(cfg, w, id, newId, reply);
        confirmed := confirmed + {id};
        ok, next, out, trace := SendWithdrawal(db.txs[id], newId, reply, answers);
      }
      ConfirmRun(cfg, w, id, out, newId, trace);
    }

    // ------------------------------------------------------------ the pending pass

    /** GetPendingTransactions, in any order. */
    method GetPendingTransactions() returns (s: seq<Due>)
      ensures ListsScheduled(db.txs, s)
    {
      s := [];
      var left := ScheduledIds(db.txs);
      while left != {}
        invariant left <= ScheduledIds(db.txs) && DistinctIds(s)
        invariant forall d :: d in s ==>
                    d.id in db.txs && Scheduled(db.txs[d.id].status) && d.amount == db.txs[d.id].amount && d.id !in left
        invariant forall i :: i in ScheduledIds(db.txs) ==> i in left || Due(i, db.txs[i].amount) in s
        decreases left
      {
        var i :| i in left;
        s, left := s + [Due(i, db.txs[i].amount)], left - {i};
      }
    }

    /** One scheduled withdrawal sent again. */
    method ResendWithdrawal(t: Tx, newId: TxId, reply: Reply, answers: DbAnswers)
      returns (ok: bool, next: Process, ghost steps: seq<Action>)
      requires Ready(cfg, View(Idle), t, newId, reply)
      requires t.id in db.txs && db.txs[t.id] == t && Scheduled(t.status)
      modifies this`db, this`past, this`sent, this`moved
      ensures (ok ==> next.Idle?) && (next.Idle? || next.Down?)
      ensures ok ==> SendSucceeds(t.address in old(db.accounts), t, reply, answers)
      ensures healthy ==> (ok <==> SendSucceeds(t.address in old(db.accounts), t, reply, answers))
      ensures db.accounts == old(db.accounts)
      ensures LegalRun(cfg, old(View(Idle)), steps) && Resends(steps) == [t.id]
      ensures Run(cfg, old(View(Idle)), steps) == View(next) && Inv(cfg, View(next))
      ensures Touched(old(View(Idle)), View(next), t.id, newId, HashesOf(reply))
    {
      hide Inv, Ready, Run, LegalRun, Touched, Dispatch, UnsentRecord, SendSucceeds, Resends, Scheduled, SendStep,
        AttemptsMatch, SendStops;
      ghost var w := View(Idle);
      ghost var out, trace;
      ok, next, out, trace := SendWithdrawal(t, newId, reply, answers);
      ResendRun(cfg, w, t.id, out, newId, reply, trace);
      SameAccounts(w, View(next), t.id, newId, HashesOf(reply));
      steps := [Resend(t.id, out, newId)] + trace;
    }

    /** The next withdrawal of the list is sent. */
    method SendDue(s: seq<Due>, n: nat, rows: map<TxId, Tx>, newIds: map<TxId, TxId>, replies: map<TxId, Reply>,
                   answers: TxId -> DbAnswers, ghost w: World, ghost trace: seq<Action>)
      returns (ok: bool, next: Process, ghost trace': seq<Action>)
      requires ListsScheduled(w.db.txs, s) && PassOffer(w, newIds, replies) && n < |s| && rows == w.db.txs
      requires SentSoFar(cfg, w, View(Idle), s, n, newIds, replies, trace)
      modifies this`db, this`past, this`sent, this`moved
      ensures (ok ==> next.Idle?) && (next.Idle? || next.Down?)
      ensures ok ==> DueSucceeds(rows, old(db.accounts), s[n], replies, answers)
      ensures healthy ==> (ok <==> DueSucceeds(rows, old(db.accounts), s[n], replies, answers))
      ensures db.accounts == old(db.accounts)
      ensures LegalRun(cfg, w, trace') && Run(cfg, w, trace') == View(next) && Inv(cfg, View(next))
      ensures Tried(s, n + 1, trace')
      ensures ok ==> SentSoFar(cfg, w, View(Idle), s, n + 1, newIds, replies, trace')
    {
      hide Inv, ListsScheduled, PassOffer, SentSoFar, Run, LegalRun, Resends, Tried, Ready, Touched, Scheduled, HashesOf,
        SendSucceeds;
      SendNext(cfg, w, View(Idle), s, n, newIds, replies, trace);
      ghost var before := View(Idle);
      var id := s[n].id;
      ghost var steps;
      ok, next, steps := ResendWithdrawal(rows[id], newIds[id], replies[id], answers(id));
      SentOneMore(cfg, w, before, View(next), s, n, newIds, replies, trace, steps);
      trace' := trace + steps;
    }

    /** The first half of a pass: it stops at a failed send, at the first withdrawal that
        the confirmed balance does not cover, or at the end of the list. */
    method SendWhileAffordable(s: seq<Due>, confBal: uint64, newIds: map<TxId, TxId>, replies: map<TxId, Reply>,
                               answers: TxId -> DbAnswers)
      returns (stop: nat, availableBalance: int64, failed: bool, next: Process, ghost trace: seq<Action>)
      requires Inv(cfg, View(Idle)) && ListsScheduled(db.txs, s) && PassOffer(View(Idle), newIds, replies)
      requires confBal as int < INT64_LIMIT && Total(s) < INT64_LIMIT
      modifies this`db, this`past, this`sent, this`moved
      ensures next.Idle? || next.Down?
      ensures LegalRun(cfg, old(View(Idle)), trace)
      ensures Run(cfg, old(View(Idle)), trace) == View(next) && Inv(cfg, View(next))
      ensures stop <= Taken(s, confBal as int) && (failed <==> stop < Taken(s, confBal as int))
      ensures forall j :: 0 <= j < stop ==> DueSucceeds(old(db.txs), old(db.accounts), s[j], replies, answers)
      ensures healthy && failed ==> !DueSucceeds(old(db.txs), old(db.accounts), s[stop], replies, answers)
      ensures Tried(s, if failed then stop + 1 else stop, trace)
      ensures !failed ==> next.Idle? && OthersKept(old(db.txs), db.txs, s, stop)
      ensures !failed ==> availableBalance as int == Left(s, confBal as int, stop) >= 0
    {
      hide Inv, ListsScheduled, PassOffer, SentSoFar, Run, LegalRun, Tried, OthersKept, Left, Taken, Total, Resends,
        DueSucceeds;
      ghost var w := View(Idle);
      var rows := db.txs;
      SentNone(cfg, w, s, newIds, replies);
      LeftNothing(s, confBal as int);
      availableBalance := confBal as int64;
      stop, failed, next, trace := 0, false, Idle, [];
      while stop < |s|
        invariant 0 <= stop <= |s| && next == Idle
        invariant SentSoFar(cfg, w, View(Idle), s, stop, newIds, replies, trace)
        invariant db.accounts == w.db.accounts
        invariant forall j :: 0 <= j < stop ==> DueSucceeds(rows, w.db.accounts, s[j], replies, answers)
        invariant availableBalance as int == Left(s, confBal as int, stop) >= 0
      {
        LeftNext(s, confBal as int, stop);
        var amount := s[stop].amount as int64;
        if availableBalance - amount >= 0 {
          availableBalance := availableBalance - amount;
          var ok;
          ok, next, trace := SendDue(s, stop, rows, newIds, replies, answers, w, trace);
          if !ok {
            failed := true;
            return;
          }
        } else {
          break;
        }
        stop := stop + 1;
      }
      LeftEnd(s, confBal as int, stop);
      SentFacts(cfg, w, View(Idle), s, stop, newIds, replies, trace);
    }

    /** One status of the marks of a pass. */
    method MarkOne(id: TxId, status: Status, ghost from: Db, ghost marks: seq<Mark>, ghost n: nat) returns (ok: bool)
      requires DbOk(cfg, from, past) && Markable(from.txs, marks)
      requires n < |marks| && marks[n] == Mark(id, status) && MarkedUpTo(from, marks, n, db)
      modifies this`db
      ensures ok ==> MarkedUpTo(from, marks, n + 1, db)
      ensures healthy ==> ok
    {
      hide DbOk, Markable, MarkedUpTo, UpdatePendingTxStatus;
      MarkNext(cfg, from, past, marks, n, db);
      ok := SetPendingStatus(db.txs[id], status);
    }

    /** The loop over the sliced list, with the unconfirmed balance added: what still fits
        is stored as pending. */
    method KeepWhileAffordable(rest: seq<Due>, available: int64, ghost s: seq<Due>, ghost budget: int, ghost k: nat,
                               ghost p: nat, ghost marks: seq<Mark>, ghost from: Db)
      returns (ok: bool, stop: nat, availableBalance: int64)
      requires 0 <= budget < INT64_LIMIT && Total(s) < INT64_LIMIT && k <= |s| && rest == s[k..]
      requires available as int == Left(s, budget, k) >= 0
      requires DbOk(cfg, from, past) && Markable(from.txs, marks)
      requires Splits(s, budget, k, p, marks) && MarkedUpTo(from, marks, 0, db)
      modifies this`db
      ensures ok ==>
                && stop == p && k + p <= |s|
                && availableBalance as int == Left(s, budget, k + p)
                && MarkedUpTo(from, marks, p, db)
      ensures healthy ==> ok
    {
      hide Total, Taken, Left, Splits, MarkedUpTo, DbOk, Markable;
      ok, stop, availableBalance := true, 0, available;
      while stop < |rest|
        invariant 0 <= stop <= |rest|
        invariant availableBalance as int == Left(s, budget, k + stop) >= 0
        invariant ok && MarkedUpTo(from, marks, stop, db)
      {
        LeftNext(s, budget, k + stop);
        var amount := rest[stop].amount as int64;
        if availableBalance - amount >= 0 {
          availableBalance := availableBalance - amount;
          SplitSize(s, budget, k, p, marks);
          SplitAt(s, budget, k, p, marks, stop);
          ok := MarkOne(rest[stop].id, Status.Pending, from, marks, stop);
          if !ok {
            return;
          }
        } else {
          break;
        }
        stop := stop + 1;
      }
      LeftEnd(s, budget, k + stop);
      SplitSize(s, budget, k, p, marks);
    }

    /** The last loop: what is left of the balance goes below zero by what is missing, and
        the rest waits for cold storage. */
    method Shortfall(cold: seq<Due>, available: int64, ghost s: seq<Due>, ghost budget: int, ghost k: nat,
                     ghost p: nat, ghost marks: seq<Mark>, ghost from: Db)
      returns (ok: bool, need: uint64)
      requires 0 <= budget < INT64_LIMIT && Total(s) < INT64_LIMIT && k + p < |s| && cold == s[k + p..]
      requires available as int == Left(s, budget, k + p)
      requires DbOk(cfg, from, past) && Markable(from.txs, marks)
      requires Splits(s, budget, k, p, marks) && MarkedUpTo(from, marks, p, db)
      modifies this`db
      ensures ok ==> need as int == Total(s) - budget >= 0 && MarkedUpTo(from, marks, |marks|, db)
      ensures healthy ==> ok
    {
      hide Total, Taken, Left, Splits, MarkedUpTo, DbOk, Markable;
      SplitSize(s, budget, k, p, marks);
      SomethingIsMissing(s, budget);
      ok, need := true, 0;
      var availableBalance := available;
      var j := 0;
      while j < |cold|
        invariant 0 <= j <= |cold|
        invariant availableBalance as int == Left(s, budget, k + p + j)
        invariant ok && MarkedUpTo(from, marks, p + j, db)
      {
        LeftBounds(s, budget, k + p + j);
        availableBalance := availableBalance - cold[j].amount as int64;
        SplitAt(s, budget, k, p, marks, p + j);
        ok := MarkOne(cold[j].id, PendingColdStorage, from, marks, p + j);
        if !ok {
          return;
        }
        j := j + 1;
      }
      LeftAll(s, budget);
      need := (-availableBalance) as uint64;
    }

    /** Both loops: the list is sliced at the exceeding withdrawal and the index starts
        over, but only when there is an unconfirmed balance at all. */
    method SplitRest(s: seq<Due>, firstExceeding: nat, available: int64, unconfBal: uint64,
                     ghost budget: int, ghost p: nat, ghost marks: seq<Mark>, ghost from: Db)
      returns (ok: bool, need: uint64)
      requires 0 <= budget < INT64_LIMIT && Total(s) < INT64_LIMIT && firstExceeding <= |s|
      requires firstExceeding == Taken(s, budget - unconfBal as int)
      requires available as int + unconfBal as int == Left(s, budget, firstExceeding) && available >= 0
      requires DbOk(cfg, from, past) && Markable(from.txs, marks)
      requires Splits(s, budget, firstExceeding, p, marks) && MarkedUpTo(from, marks, 0, db)
      modifies this`db
      ensures ok ==> need as int == Max(0, Total(s) - budget) && MarkedUpTo(from, marks, |marks|, db)
      ensures healthy ==> ok
    {
      hide Total, Taken, Left, Splits, MarkedUpTo, DbOk, Markable;
      SplitSize(s, budget, firstExceeding, p, marks);
      var pendingTxns, exceedingTx, availableBalance := s, firstExceeding, available;
      ok, need := true, 0;
      if exceedingTx < |s| && unconfBal > 0 {
        LeftBounds(s, budget, firstExceeding);
        pendingTxns := pendingTxns[exceedingTx..];
        availableBalance := availableBalance + unconfBal as int64;
        ok, exceedingTx, availableBalance :=
          KeepWhileAffordable(pendingTxns, availableBalance, s, budget, firstExceeding, p, marks, from);
        if !ok {
          return;
        }
      }
      if exceedingTx < |pendingTxns| {
        assert pendingTxns[exceedingTx..] == s[firstExceeding + p..];
        ok, need := Shortfall(pendingTxns[exceedingTx..], availableBalance, s, budget, firstExceeding, p, marks, from);
      } else {
        EverythingKept(s, budget);
      }
    }

    /** The transaction that ends a pass. */
    method FinishBody(s: seq<Due>, firstExceeding: nat, available: int64, confBal: uint64, unconfBal: uint64)
      returns (ok: bool)
      requires confBal as int + unconfBal as int < INT64_LIMIT && Total(s) < INT64_LIMIT
      requires firstExceeding == Taken(s, confBal as int)
      requires available as int == Left(s, confBal as int, firstExceeding) >= 0
      requires DbOk(cfg, db, past) && Markable(db.txs, MarksOf(PlanFor(s, confBal as int, unconfBal as int)))
      modifies this`db
      ensures ok ==>
                var plan := PlanFor(s, confBal as int, unconfBal as int);
                && MarkAll(old(db), MarksOf(plan)).Stored?
                && db == MarkAll(old(db), MarksOf(plan)).db.(coldNeed := plan.need)
      ensures healthy ==> ok
    {
      hide Total, Taken, Left, Splits, MarkedUpTo, DbOk, Markable, PlanFor, MarksOf, MarkAll;
      ghost var from, plan := db, PlanFor(s, confBal as int, unconfBal as int);
      MarksAre(s, confBal as int, unconfBal as int);
      MarkedNone(db, MarksOf(plan));
      LeftMore(s, confBal as int, unconfBal as int, firstExceeding);
      var need;
      ok, need := SplitRest(s, firstExceeding, available, unconfBal, confBal as int + unconfBal as int, |plan.pending|,
                            MarksOf(plan), from);
      if ok {
        MarkedAll(from, MarksOf(plan), db);
        ok := Statement();
        db := db.(coldNeed := need as int);
      }
    }

    /** The scheduled rows by amount. */
    method SortedPending() returns (s: seq<Due>)
      ensures ListsScheduled(db.txs, s) && Sorted(s) && Total(s) == ScheduledTotal(db.txs)
    {
      var pending := GetPendingTransactions();
      var a := new Due[|pending|](i requires 0 <= i < |pending| => pending[i]);
      assert a[..] == pending;
      SortByAmount(a);
      s := a[..];
      ListsSorted(db.txs, pending, s);
      ListedIsTotal(db.txs, s);
    }

    /** The second half of a pass, once every affordable withdrawal of `s` was sent; `txs`
        is the table the pass read. */
    method FinishPass(s: seq<Due>, stop: nat, availableBalance: int64, confBal: uint64, unconfBal: uint64,
                      commit: Commit, ghost txs: map<TxId, Tx>)
      returns (out: Commit)
      requires stop == Taken(s, confBal as int)
      requires Inv(cfg, View(Idle)) && ListsScheduled(txs, s) && OthersKept(txs, db.txs, s, stop)
      requires availableBalance as int == Left(s, confBal as int, stop) >= 0
      requires confBal as int + unconfBal as int < INT64_LIMIT && Total(s) < INT64_LIMIT
      modifies this`db
      ensures var plan := PlanFor(s, confBal as int, unconfBal as int);
        && View(Idle) == Next(cfg, old(View(Idle)), MarkPending(MarksOf(plan), plan.need, out))
        && (out.Committed? ==>
              PassStored(txs, db.txs, plan)
              && db.coldNeed == Max(0, ScheduledTotal(txs) - confBal as int - unconfBal as int))
      ensures out == commit || out == Dropped
      ensures healthy ==> out == commit
      ensures Inv(cfg, View(Idle))
    {
      hide Inv, ListsScheduled, OthersKept, Total, Taken, Left, Next, Markable, MarksOf, PassStored, ScheduledTotal,
        PlanFor, DbOk, MarkAll;
      ghost var mid, plan := View(Idle), PlanFor(s, confBal as int, unconfBal as int);
      var before := db;
      PassEnds(cfg, txs, mid, s, confBal as int, unconfBal as int);
      PassStoresThePlan(cfg, txs, mid, s, confBal as int, unconfBal as int);
      MarkStart(cfg, mid, plan);
      ListedIsTotal(txs, s);
      var ok := FinishBody(s, stop, availableBalance, confBal, unconfBal);
      out := if ok then commit else Dropped;
      MarkPlanIs(cfg, mid, plan, out);
      if out.Dropped? {
        db := before;
      }
    }

    /** tryToUpdatePendingTxns: sort, send while the confirmed balance lasts, split the
        rest by both balances and store its statuses and the missing amount.  `answered`
        says whether the node told the balances. */
    method TryToUpdatePendingTxns(
      answered: bool, confBal: uint64, unconfBal: uint64, newIds: map<TxId, TxId>, replies: map<TxId, Reply>,
      answers: TxId -> DbAnswers, commit: Commit)
      returns (done: bool, s: seq<Due>, next: Process, ghost trace: seq<Action>)
      requires Inv(cfg, View(Idle)) && PassOffer(View(Idle), newIds, replies)
      requires confBal as int + unconfBal as int < INT64_LIMIT && ScheduledTotal(db.txs) < INT64_LIMIT
      modifies this`db, this`past, this`sent, this`moved
      ensures next.Idle? || next.Down?
      ensures ListsScheduled(old(db.txs), s) && Sorted(s)
      ensures LegalRun(cfg, old(View(Idle)), trace)
      ensures Run(cfg, old(View(Idle)), trace) == View(next) && Inv(cfg, View(next))
      ensures |Resends(trace)| <= Taken(s, confBal as int) && Tried(s, |Resends(trace)|, trace)
      ensures done ==> next.Idle? && PassDone(old(db.txs), db, s, confBal as int, unconfBal as int, trace)
      ensures done ==> PassSucceeds(old(db), s, confBal as int, replies, answered, answers, commit)
      ensures healthy ==> (done <==> PassSucceeds(old(db), s, confBal as int, replies, answered, answers, commit))
    {
      hide Inv, PassOffer, DueSucceeds, ListsScheduled, Run, LegalRun, Total, Taken, Left, OthersKept, PassDone, Sorted, Next,
        Legal, Resends, Tried, ScheduledTotal, PlanFor, PassStored, MarksOf;
      ghost var w := View(Idle);
      s := SortedPending();
      NoSteps(cfg, w);
      TriedNone(s);
      TriedSize(s, 0, [], []);
      done, next, trace := false, Idle, [];
      if !answered {
        return;
      }
      var stop, availableBalance, failed;
      stop, availableBalance, failed, next, trace := SendWhileAffordable(s, confBal, newIds, replies, answers);
      TriedSize(s, if failed then stop + 1 else stop, trace, trace);
      if failed {
        return;
      }
      ghost var mid, plan := View(Idle), PlanFor(s, confBal as int, unconfBal as int);
      AttemptedIs(s, confBal as int, unconfBal as int);
      TriedAll(s, plan, stop, trace);
      var out := FinishPass(s, stop, availableBalance, confBal, unconfBal, commit, w.db.txs);
      PassRun(cfg, w, mid, s, plan, out, trace);
      TriedSize(s, stop, trace, trace + [MarkPending(MarksOf(plan), plan.need, out)]);
      trace := trace + [MarkPending(MarksOf(plan), plan.need, out)];
      done := out.Committed?;
      if done {
        PassIsDone(w.db.txs, db, s, confBal as int, unconfBal as int, trace);
      }
    }

    /** The updater's handling of a cancel request: cancelPendingTx with the pass that
        follows a success. */
    method HandleCancel(id: TxId, commit: Commit, answered: bool, confBal: uint64, unconfBal: uint64,
                        newIds: map<TxId, TxId>, replies: map<TxId, Reply>,
                        answers: TxId -> DbAnswers, passCommit: Commit)
      returns (ok: bool, next: Process, ghost out: Commit, ghost trace: seq<Action>)
      requires Inv(cfg, View(Idle)) && PassOffer(View(Idle), newIds, replies)
      requires confBal as int + unconfBal as int < INT64_LIMIT && ScheduledTotal(db.txs) < INT64_LIMIT
      modifies this`db, this`past, this`sent, this`moved
      ensures next.Idle? || next.Down?
      ensures ok ==> CancelSucceeds(old(db.txs), id, commit)
      ensures healthy ==> out == commit && (ok <==> CancelSucceeds(old(db.txs), id, commit))
      ensures !ok ==> trace == []
      ensures LegalRun(cfg, old(View(Idle)), [Cancel(id, out)] + trace)
      ensures Run(cfg, old(View(Idle)), [Cancel(id, out)] + trace) == View(next) && Inv(cfg, View(next))
    {
      ghost var w := View(Idle);
      hide Inv, Run, LegalRun, Next, Legal, PassOffer, ScheduledTotal, ListsScheduled, PassDone, Taken, Resends, Sorted,
        PassSucceeds;
      ok, out := CancelPendingTx(id, commit);
      next, trace := Idle, [];
      if ok {
        CancelOffer(cfg, w, id, out, newIds, replies);
        var done, s;
        done, s, next, trace :=
          TryToUpdatePendingTxns(answered, confBal, unconfBal, newIds, replies, answers, passCommit);
      } else {
        NoSteps(cfg, View(Idle));
      }
      CancelRun(cfg, w, id, out, trace);
    }
  }
}
