/** When exactly a run swallows the first event of a withdrawal. */
module SwallowedEvents {
  import opened Types
  import opened Ledger
  import opened LedgerInvariant
  import opened LedgerSteps
  import opened WalletMachine
  import opened WalletInvariant
  import opened WalletSteps
  import opened WalletTheorems

  /** The step rolls back an attempt to save withdrawal i that got past the notification,
      before any event of it was written. */
  predicate Swallows(w: World, a: Action, i: TxId) {
    && a == Persist(NotSaved(true))
    && w.proc.Sent? && w.proc.tx.id == i && !w.proc.tx.cold && w.proc.tx.reported == -1
  }

  /** Some step of the run does so, with or without a row for the withdrawal. */
  ghost predicate SwallowedIn(cfg: Config, w: World, actions: seq<Action>, i: TxId, hasRow: bool) {
    exists n: nat :: SwallowedAt(cfg, w, actions, i, hasRow, n)
  }

  ghost predicate SwallowedAt(cfg: Config, w: World, actions: seq<Action>, i: TxId, hasRow: bool, n: nat) {
    n < |actions| && Swallows(Run(cfg, w, actions[..n]), actions[n], i)
    && (i in Run(cfg, w, actions[..n]).db.txs <==> hasRow)
  }

  lemma SwallowedSnoc(cfg: Config, w: World, actions: seq<Action>, i: TxId, hasRow: bool)
    requires actions != []
    ensures var init, p := actions[..|actions| - 1], Run(cfg, w, actions[..|actions| - 1]);
      SwallowedIn(cfg, w, actions, i, hasRow) <==>
        || SwallowedIn(cfg, w, init, i, hasRow)
        || (Swallows(p, actions[|init|], i) && (i in p.db.txs <==> hasRow))
  {
    hide Run, Swallows;
    var init := actions[..|actions| - 1];
    forall n: nat | n < |init|
      ensures SwallowedAt(cfg, w, init, i, hasRow, n) <==> SwallowedAt(cfg, w, actions, i, hasRow, n)
    {
      assert init[..n] == actions[..n];
    }
    assert SwallowedAt(cfg, w, actions, i, hasRow, |init|) <==>
             Swallows(Run(cfg, w, init), actions[|init|], i) && (i in Run(cfg, w, init).db.txs <==> hasRow);
  }

  /** One step adds an id to the history of swallowed events exactly then. */
  lemma StepSwallows(cfg: Config, w: World, a: Action, i: TxId)
    requires Inv(cfg, w) && Legal(cfg, w, a)
    ensures i in Next(cfg, w, a).past.lost <==> i in w.past.lost || (Swallows(w, a, i) && i !in w.db.txs)
    ensures i in Next(cfg, w, a).past.delayed <==> i in w.past.delayed || (Swallows(w, a, i) && i in w.db.txs)
  {
    hide DbOk, SentOk, HoldOk, ChainOk, Gate, ListingOk, RefreshOk, UnsentRecord, SaveSent, SaveFailed, ScanNew, ScanKnown,
      InternalTransfer, UpdatePendingTxStatus, MarkAll, EntriesOk, ScanOk, Admit, FreshHash;
    if a.PollNew? && w.proc.Idle? {
      ListingEntries(cfg, w, a.entries, a.lastBlock, a.ids);
      InvDb(cfg, w);
      ScanNewKeeps(cfg, Scan(w.db, w.past), a.entries, a.ids);
      ScanHistory(cfg, Scan(w.db, w.past), ScanNew(cfg, Scan(w.db, w.past), a.entries, a.ids));
    } else if a.PollKnown? && w.proc.Idle? {
      RefreshHashes(cfg, w, a.order, a.infos);
      InvDb(cfg, w);
      ScanKnownKeeps(cfg, Scan(w.db, w.past), a.order, a.infos);
      ScanHistory(cfg, Scan(w.db, w.past), ScanKnown(cfg, Scan(w.db, w.past), a.order, a.infos));
    }
  }

  lemma RefreshHashes(cfg: Config, w: World, order: seq<TxId>, infos: map<string, Info>)
    requires RefreshOk(cfg, w, order, infos)
    ensures forall n :: 0 <= n < |order| ==> order[n] in w.db.txs && w.db.txs[order[n]].hash != ""
  {
    assert forall n :: 0 <= n < |order| ==> order[n] in LessConfirmed(cfg, w.db.txs);
  }

  lemma ScanHistory(cfg: Config, s: Scan, p: Scan)
    requires ScanOk(cfg, s, p)
    ensures p.Scan? && s.Scan? && p.past.lost == s.past.lost && p.past.delayed == s.past.delayed
  {
  }

  /** The history `lost` holds exactly the withdrawals whose first event a rolled-back
      attempt to save them swallowed while they had no row, `delayed` those that had one. */
  lemma {:induction false} SwallowedIff(cfg: Config, accounts: set<string>, actions: seq<Action>, i: TxId)
    requires cfg.maxConfirmations >= 1 && LegalRun(cfg, Genesis(accounts), actions)
    ensures var w := Run(cfg, Genesis(accounts), actions);
      && (i in w.past.lost <==> SwallowedIn(cfg, Genesis(accounts), actions, i, false))
      && (i in w.past.delayed <==> SwallowedIn(cfg, Genesis(accounts), actions, i, true))
  {
    hide Inv, Legal, Next, Swallows;
    if actions != [] {
      var g, init := Genesis(accounts), actions[..|actions| - 1];
      SwallowedIff(cfg, accounts, init, i);
      GenesisInv(cfg, accounts);
      RunKeeps(cfg, g, init);
      StepSwallows(cfg, Run(cfg, g, init), actions[|init|], i);
      SwallowedSnoc(cfg, g, actions, i, false);
      SwallowedSnoc(cfg, g, actions, i, true);
      hide SwallowedIn;
    }
  }

  // -------------------------------------------------- the event that comes late

  /** A withdrawal that first lacks funds, is sent again, and whose first attempt to be
      saved is rolled back after the notification. */
  function DelayedActions(): seq<Action> {
    [Restart, Withdraw(EXAMPLE_REQUEST, false, Committed, 2), NodeReplies(Refused(true)), Persist(Saved),
     Resend(1, Committed, 2), NodeReplies(Accepted("hash")), Persist(NotSaved(true)), Persist(Saved)]
  }

  /** The row of the example withdrawal while it waits for funds. */
  const PENDING_TX := EXAMPLE_TX.(hash := "", status := Status.Pending)

  lemma DelayedRefused()
    ensures var w := Run(EXAMPLE_CONFIG, Genesis({}), DelayedActions()[..4]);
      && LegalRun(EXAMPLE_CONFIG, Genesis({}), DelayedActions()[..4])
      && w.proc.Idle? && w.db.txs == map[1 := PENDING_TX] && w.db.accounts == {} && w.sent == []
      && w.db.events == [Event(PendingStatusUpdated, PENDING_TX)] && w.past == Past({}, {}, [])
  {
    hide Run, LegalRun, Next, Legal;
    var c, g, xs := EXAMPLE_CONFIG, Genesis({}), DelayedActions();
    ExampleLock();
    assert xs[..2] == ExampleActions()[..2];
    assert xs[..3] == xs[..2] + [xs[2]] && xs[..4] == xs[..3] + [xs[3]];
    RunSnoc(c, g, xs[..2], xs[2]);
    RunSnoc(c, g, xs[..3], xs[3]);
    var w2 := Run(c, g, xs[..2]);
    RefusedStep(c, w2);
    RefusedSaved(c, Next(c, w2, xs[2]));
  }

  lemma RefusedStep(c: Config, w: World)
    requires w.proc == Locked(EXAMPLE_TX.(hash := ""))
    ensures Legal(c, w, NodeReplies(Refused(true)))
    ensures Next(c, w, NodeReplies(Refused(true))) == w.(proc := Failed(EXAMPLE_TX.(hash := ""), true, SAVE_RETRIES))
  {
  }

  lemma RefusedSaved(c: Config, w: World)
    requires w.proc == Failed(EXAMPLE_TX.(hash := ""), true, SAVE_RETRIES) && w.db.txs == map[] && w.db.events == []
    ensures Legal(c, w, Persist(Saved))
    ensures Next(c, w, Persist(Saved))
         == w.(proc := Idle,
               db := w.db.(txs := map[1 := PENDING_TX], events := [Event(PendingStatusUpdated, PENDING_TX)], lock := None))
  {
    PendingStatusShape(w.db, EXAMPLE_TX.(hash := ""), Status.Pending);
    hide UpdatePendingTxStatus;
  }

  lemma DelayedRetry()
    ensures var w := Run(EXAMPLE_CONFIG, Genesis({}), DelayedActions()[..7]);
      && LegalRun(EXAMPLE_CONFIG, Genesis({}), DelayedActions()[..7])
      && w.proc == Sent(EXAMPLE_TX.(reported := 0), 9) && w.db.txs == map[1 := PENDING_TX]
      && w.db.events == [Event(PendingStatusUpdated, PENDING_TX)] && w.past == Past({}, {1}, [])
  {
    var c, g, xs := EXAMPLE_CONFIG, Genesis({}), DelayedActions();
    DelayedRefused();
    assert xs[..5] == xs[..4] + [xs[4]] && xs[..6] == xs[..5] + [xs[5]] && xs[..7] == xs[..6] + [xs[6]];
    RunSnoc(c, g, xs[..4], xs[4]);
    RunSnoc(c, g, xs[..5], xs[5]);
    RunSnoc(c, g, xs[..6], xs[6]);
    var w4 := Run(c, g, xs[..4]);
    hide Run, LegalRun, Next;
    ResendStep(c, w4);
    var w5 := Next(c, w4, xs[4]);
    AcceptedStep(c, w5);
    RolledBackStep(c, Next(c, w5, xs[5]));
  }

  lemma ResendStep(c: Config, w: World)
    requires w.proc.Idle? && w.db.txs == map[1 := PENDING_TX] && w.db.accounts == {}
    ensures Legal(c, w, Resend(1, Committed, 2))
    ensures Next(c, w, Resend(1, Committed, 2)) == w.(proc := Locked(PENDING_TX), db := w.db.(lock := Some(PENDING_TX)))
  {
  }

  lemma AcceptedStep(c: Config, w: World)
    requires w.proc == Locked(PENDING_TX) && w.db.txs == map[1 := PENDING_TX] && w.sent == []
    ensures Legal(c, w, NodeReplies(Accepted("hash")))
    ensures Next(c, w, NodeReplies(Accepted("hash")))
         == w.(proc := Sent(EXAMPLE_TX, SAVE_RETRIES), sent := [BroadcastOf(EXAMPLE_TX)])
  {
  }

  lemma RolledBackStep(c: Config, w: World)
    requires c.maxConfirmations >= 1 && w.proc == Sent(EXAMPLE_TX, SAVE_RETRIES) && w.db.txs == map[1 := PENDING_TX]
    ensures Legal(c, w, Persist(NotSaved(true)))
    ensures Next(c, w, Persist(NotSaved(true)))
         == w.(proc := Sent(EXAMPLE_TX.(reported := 0), 9), past := w.past.(delayed := w.past.delayed + {1}))
  {
    hide SaveSent;
  }

  /** The withdrawal is broadcast and saved, its lock is released, and no confirmation
      event of it was written or counted as written. */
  lemma RolledBackNotificationDelaysAnEvent()
    ensures var w := Run(EXAMPLE_CONFIG, Genesis({}), DelayedActions());
      && LegalRun(EXAMPLE_CONFIG, Genesis({}), DelayedActions())
      && 1 in w.past.delayed && 1 in w.db.txs && w.db.txs[1].hash == "hash" && w.db.txs[1].reported == -1
      && Stream(w.db.events, 1) == [] && w.db.lock.None? && w.proc.Idle?
  {
    var c, g, xs := EXAMPLE_CONFIG, Genesis({}), DelayedActions();
    DelayedRetry();
    assert xs == xs[..7] + [xs[7]];
    RunSnoc(c, g, xs[..7], xs[7]);
    var w7 := Run(c, g, xs[..7]);
    SaveSentShape(c, w7.db, w7.past, EXAMPLE_TX.(reported := 0));
    SilentEvent(Event(PendingStatusUpdated, PENDING_TX), 1);
    hide Run, LegalRun, SaveSent, Stream;
    assert w7.db.events + [] == w7.db.events;
  }
}
