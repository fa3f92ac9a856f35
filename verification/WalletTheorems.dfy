/** What every run of the wallet machine keeps, stated over whole runs. */
module WalletTheorems {
  import opened Types
  import opened Ledger
  import opened LedgerInvariant
  import opened LedgerSteps
  import opened WalletMachine
  import opened WalletInvariant
  import opened WalletSteps

  /** A state some legal run from an empty database ends in. */
  ghost predicate Reachable(cfg: Config, w: World) {
    exists accounts, actions :: LegalRun(cfg, Genesis(accounts), actions) && w == Run(cfg, Genesis(accounts), actions)
  }

  lemma {:induction false} RunKeeps(cfg: Config, w: World, actions: seq<Action>)
    requires Inv(cfg, w) && LegalRun(cfg, w, actions)
    ensures Inv(cfg, Run(cfg, w, actions))
    ensures Grows(w.db.txs, Run(cfg, w, actions).db.txs)
  {
    hide Inv, Next, Grows, Legal;
    GrowsSame(w.db.txs);
    if actions != [] {
      var init := actions[..|actions| - 1];
      var p := Run(cfg, w, init);
      RunKeeps(cfg, w, init);
      StepKeeps(cfg, p, actions[|actions| - 1]);
      GrowsTrans(w.db.txs, p.db.txs, Run(cfg, w, actions).db.txs);
    }
  }

  lemma GrowsTrans(a: map<TxId, Tx>, b: map<TxId, Tx>, c: map<TxId, Tx>)
    requires Grows(a, b) && Grows(b, c)
    ensures Grows(a, c)
  {
    forall i | i in a ensures i in c && RowStep(a[i], c[i]) {
      assert RowStep(a[i], b[i]) && RowStep(b[i], c[i]);
    }
  }

  lemma GenesisInv(cfg: Config, accounts: set<string>)
    requires cfg.maxConfirmations >= 1
    ensures Inv(cfg, Genesis(accounts))
  {
  }

  lemma ReachableInv(cfg: Config, w: World)
    requires cfg.maxConfirmations >= 1 && Reachable(cfg, w)
    ensures Inv(cfg, w)
  {
    hide Inv, Run, LegalRun, Genesis, Grows;
    var accounts, actions :|
      LegalRun(cfg, Genesis(accounts), actions) && w == Run(cfg, Genesis(accounts), actions);
    GenesisInv(cfg, accounts);
    RunKeeps(cfg, Genesis(accounts), actions);
  }

  // -------------------------------------------------------------- withdrawals

  /** Whenever the wallet lock is clear, the node's broadcast withdrawals are exactly
      the outgoing rows that have a hash: same ids, hashes, addresses and amounts. */
  lemma BroadcastsAreRecorded(cfg: Config, w: World)
    requires cfg.maxConfirmations >= 1 && Reachable(cfg, w) && w.db.lock.None?
    ensures forall b :: b in w.sent <==>
              b.id in w.db.txs && w.db.txs[b.id].direction.Outgoing? && w.db.txs[b.id].hash != ""
              && b == BroadcastOf(w.db.txs[b.id])
  {
    ReachableInv(cfg, w);
    hide Reachable;
    forall b | b in w.sent ensures Recorded(w.db.txs, b) && b.hash != "" {
      var k :| 0 <= k < |w.sent| && w.sent[k] == b;
    }
    forall i | i in w.db.txs && w.db.txs[i].direction.Outgoing? && w.db.txs[i].hash != ""
      ensures BroadcastOf(w.db.txs[i]) in w.sent
    {
      assert InSent(w.sent, i);
      var k :| 0 <= k < |w.sent| && w.sent[k].id == i;
      assert Recorded(w.db.txs, w.sent[k]);
      assert RowOk(cfg, i, w.db.txs[i]);
    }
  }

  /** In every reachable state, crashed or not, no withdrawal id and no hash was broadcast twice. */
  lemma NeverBroadcastTwice(cfg: Config, w: World)
    requires cfg.maxConfirmations >= 1 && Reachable(cfg, w)
    ensures forall j, k :: 0 <= j < k < |w.sent| ==>
              w.sent[j].id != w.sent[k].id && w.sent[j].hash != w.sent[k].hash
  {
    ReachableInv(cfg, w);
    hide Reachable;
  }

  /** A regular withdrawal above the threshold is broadcast, transferred internally or
      queued for sending only after a confirm request for it was processed, and no
      withdrawal to cold storage is ever stored as pending. */
  lemma ManualConfirmationIsKept(cfg: Config, w: World)
    requires cfg.maxConfirmations >= 1 && Reachable(cfg, w)
    ensures forall k :: 0 <= k < |w.sent| && !w.sent[k].cold && w.sent[k].amount > cfg.holdAbove ==>
              w.sent[k].id in w.confirmed
    ensures forall i :: i in w.db.txs ==>
              var r := w.db.txs[i];
              && (r.direction.Outgoing? && !r.cold && r.amount > cfg.holdAbove && i !in w.confirmed ==>
                    r.status.PendingManual? || r.status.Cancelled?)
              && (Waiting(r.status) ==> !r.cold)
  {
    ReachableInv(cfg, w);
    hide Reachable;
    forall i | i in w.db.txs ensures RowOk(cfg, i, w.db.txs[i]) {
    }
  }

  /** Waiting rows have no hash, a cancelled withdrawal was never broadcast, and the
      "other hash" panics were never reached. */
  lemma StateMachineIsSafe(cfg: Config, w: World)
    requires cfg.maxConfirmations >= 1 && Reachable(cfg, w)
    ensures !w.panicked
    ensures forall i :: i in w.db.txs && Waiting(w.db.txs[i].status) ==> w.db.txs[i].hash == ""
    ensures forall i, b :: i in w.db.txs && w.db.txs[i].status.Cancelled? && b in w.sent ==> b.id != i
  {
    ReachableInv(cfg, w);
    hide Reachable;
    forall i, b | i in w.db.txs && w.db.txs[i].status.Cancelled? && b in w.sent ensures b.id != i {
      assert !InSent(w.sent, i);
    }
  }

  /** From any reachable state on, whatever happens: no row disappears, no hash
      changes, a cancelled row stays as it is, reported confirmations never go back. */
  lemma HistoryIsStable(cfg: Config, w: World, actions: seq<Action>)
    requires cfg.maxConfirmations >= 1 && Reachable(cfg, w) && LegalRun(cfg, w, actions)
    ensures var w' := Run(cfg, w, actions);
            forall i :: i in w.db.txs ==>
              && i in w'.db.txs
              && w'.db.txs[i].amount == w.db.txs[i].amount
              && w'.db.txs[i].address == w.db.txs[i].address
              && (w.db.txs[i].hash != "" ==> w'.db.txs[i].hash == w.db.txs[i].hash)
              && (w.db.txs[i].status.Cancelled? ==> w'.db.txs[i] == w.db.txs[i])
              && w.db.txs[i].reported <= w'.db.txs[i].reported
  {
    ReachableInv(cfg, w);
    hide Reachable;
    RunKeeps(cfg, w, actions);
    var w' := Run(cfg, w, actions);
    forall i | i in w.db.txs ensures i in w'.db.txs && RowStep(w.db.txs[i], w'.db.txs[i]) {
    }
  }

  // ------------------------------------------------------------ confirmations

  /** Whatever counts the node gave and in whatever order, the events of a polled
      transaction carry 0, 1, ..., r once each and in order, with r the highest clamped
      count; type and status of each are fixed by its number, and each carries the row's
      hash, address and amount.  The stream is complete if and only if the transaction is
      not in `lost`; otherwise exactly the number 0 is missing. */
  lemma ConfirmationsAreReportedOnce(cfg: Config, w: World, i: TxId)
    requires cfg.maxConfirmations >= 1 && Reachable(cfg, w)
    requires i in w.db.txs
    ensures var row, s := w.db.txs[i], Stream(w.db.events, i);
            && (i !in w.past.lost <==> StreamOk(cfg, s, row.direction, 0, row.reported))
            && (i in w.past.lost ==> StreamOk(cfg, s, row.direction, 1, row.reported))
            && OfRow(s, row)
            && (row.hash != "" && !Silent(cfg, row) ==>
                  row.reported == Max(Start(w.past, row), Peak(cfg, w.past.polled, i)))
            && (row.hash != "" && Silent(cfg, row) ==> s == [])
  {
    ReachableInv(cfg, w);
    hide Reachable;
    var row := w.db.txs[i];
    assert RowOk(cfg, i, row) && PeakOk(cfg, w.past, row);
    assert StreamOk(cfg, Stream(w.db.events, i), row.direction, Base(w.past, i), row.reported);
    if row.hash != "" && Silent(cfg, row) {
      assert |Stream(w.db.events, i)| == 0;
    }
  }

  /** What event number n of a stream says: its type by direction, its status by n. */
  lemma EventSays(cfg: Config, w: World, i: TxId, k: nat)
    requires cfg.maxConfirmations >= 1 && Reachable(cfg, w)
    requires i in w.db.txs && k < |Stream(w.db.events, i)|
    ensures var e, d := Stream(w.db.events, i)[k], w.db.txs[i].direction;
      var n := e.tx.confirmations;
      && n == (if i in w.past.lost then k + 1 else k)
      && (e.kind == NewIncomingTx <==> d == Incoming && n == 0)
      && (e.kind == IncomingTxConfirmed <==> d == Incoming && n > 0)
      && (e.kind == NewOutgoingTx <==> d == Outgoing && n == 0)
      && (e.kind == OutgoingTxConfirmed <==> d == Outgoing && n > 0)
      && (e.tx.status == New <==> n <= 0)
      && (e.tx.status == Confirmed <==> 0 < n < cfg.maxConfirmations)
      && (e.tx.status == FullyConfirmed <==> n >= cfg.maxConfirmations)
  {
    ConfirmationsAreReportedOnce(cfg, w, i);
    hide Reachable, Stream, Peak;
  }

  /** The status of a broadcast row follows its confirmation count. */
  lemma RowStatusFollows(cfg: Config, w: World, i: TxId)
    requires cfg.maxConfirmations >= 1 && Reachable(cfg, w)
    requires i in w.db.txs && w.db.txs[i].hash != ""
    ensures var r := w.db.txs[i];
      && (r.status == New <==> r.confirmations <= 0)
      && (r.status == Confirmed <==> 0 < r.confirmations < cfg.maxConfirmations)
      && (r.status == FullyConfirmed <==> r.confirmations >= cfg.maxConfirmations)
  {
    hide Reachable;
    ReachableInv(cfg, w);
    assert RowOk(cfg, i, w.db.txs[i]);
  }

  /** What a listener sees of an event. */
  datatype Seen = Seen(kind: EventType, confirmations: int, status: Status)

  function Look(s: seq<Event>): (v: seq<Seen>)
    ensures |v| == |s|
    ensures forall k :: 0 <= k < |s| ==> v[k] == Seen(s[k].kind, s[k].tx.confirmations, s[k].tx.status)
  {
    seq(|s|, k requires 0 <= k < |s| => Seen(s[k].kind, s[k].tx.confirmations, s[k].tx.status))
  }

  /** Two transactions of one direction polled on entirely different schedules, in
      different runs, show a listener the same events as soon as their highest counts
      agree and their first events were both written or both swallowed. */
  lemma PollScheduleDoesNotMatter(cfg: Config, v: World, i: TxId, w: World, j: TxId)
    requires cfg.maxConfirmations >= 1 && Reachable(cfg, v) && Reachable(cfg, w)
    requires i in v.db.txs && j in w.db.txs && v.db.txs[i].direction == w.db.txs[j].direction
    requires v.db.txs[i].hash != "" && !Silent(cfg, v.db.txs[i])
    requires w.db.txs[j].hash != "" && !Silent(cfg, w.db.txs[j])
    requires Highest(cfg, v.past, v.db.txs[i]) == Highest(cfg, w.past, w.db.txs[j])
    requires i in v.past.lost <==> j in w.past.lost
    ensures Look(Stream(v.db.events, i)) == Look(Stream(w.db.events, j))
  {
    hide Reachable, Peak, Stream, StreamOk, OfRow, Look, Start;
    ConfirmationsAreReportedOnce(cfg, v, i);
    ConfirmationsAreReportedOnce(cfg, w, j);
    RowIds(cfg, v, i);
    RowIds(cfg, w, j);
    SameLook(cfg, Stream(v.db.events, i), Stream(w.db.events, j), v.db.txs[i].direction,
             if i in v.past.lost then 1 else 0, v.db.txs[i].reported);
  }

  lemma SameLook(cfg: Config, s: seq<Event>, s': seq<Event>, d: Direction, base: nat, reported: int)
    requires cfg.maxConfirmations >= 1
    requires StreamOk(cfg, s, d, base, reported) && StreamOk(cfg, s', d, base, reported)
    ensures Look(s) == Look(s')
  {
    forall k | 0 <= k < |s|
      ensures Look(s)[k] == Look(s')[k]
    {
      hide StreamOk, Look;
      NumberFixes(cfg, s, d, base, reported, k);
      NumberFixes(cfg, s', d, base, reported, k);
      OneKind(d, s[k].kind, s'[k].kind, base + k);
      OneStatus(cfg, s[k].tx.status, s'[k].tx.status, base + k);
    }
  }

  lemma NumberFixes(cfg: Config, s: seq<Event>, d: Direction, base: int, reported: int, k: nat)
    requires StreamOk(cfg, s, d, base, reported) && k < |s|
    ensures s[k].tx.confirmations == base + k && KindIs(d, s[k].kind, base + k) && StatusIs(cfg, s[k].tx.status, base + k)
  {
  }

  lemma OneKind(d: Direction, a: EventType, b: EventType, n: nat)
    requires KindIs(d, a, n) && KindIs(d, b, n)
    ensures a == b
  {
  }

  lemma OneStatus(cfg: Config, a: Status, b: Status, n: nat)
    requires cfg.maxConfirmations >= 1 && StatusIs(cfg, a, n) && StatusIs(cfg, b, n)
    ensures a == b
  {
  }

  /** The highest clamped count of a transaction; being saved counts as seen without confirmations. */
  function Highest(cfg: Config, past: Past, r: Tx): int {
    Max(Start(past, r), Peak(cfg, past.polled, r.id))
  }

  lemma RowIds(cfg: Config, w: World, i: TxId)
    requires cfg.maxConfirmations >= 1 && Reachable(cfg, w) && i in w.db.txs
    ensures w.db.txs[i].id == i
  {
    ReachableInv(cfg, w);
    hide Reachable;
    assert RowOk(cfg, i, w.db.txs[i]);
  }

  lemma DepositIsComplete(cfg: Config, w: World, i: TxId)
    requires cfg.maxConfirmations >= 1 && Reachable(cfg, w)
    requires i in w.db.txs && w.db.txs[i].direction.Incoming? && w.db.txs[i].hash != "" && !Silent(cfg, w.db.txs[i])
    ensures StreamOk(cfg, Stream(w.db.events, i), Incoming, 0, Max(-1, Peak(cfg, w.past.polled, i)))
  {
    ReachableInv(cfg, w);
    hide Reachable;
    ConfirmationsAreReportedOnce(cfg, w, i);
    if InSent(w.sent, i) {
      IncomingIsNotSent(cfg, w, i);
    }
    assert i in w.past.lost + w.past.delayed ==> InSent(w.sent, i);
  }

  /** A deposit is never the row of a broadcast withdrawal. */
  lemma IncomingIsNotSent(cfg: Config, w: World, i: TxId)
    requires Inv(cfg, w) && i in w.db.txs && w.db.txs[i].direction.Incoming?
    ensures !InSent(w.sent, i)
  {
  }

  /** A notifiable broadcast transaction with events still to come is still polled. */
  lemma NoEarlyDrop(cfg: Config, w: World, i: TxId)
    requires cfg.maxConfirmations >= 1 && Reachable(cfg, w)
    requires i in w.db.txs && w.db.txs[i].hash != "" && !Silent(cfg, w.db.txs[i])
    requires w.db.txs[i].reported < cfg.maxConfirmations
    ensures i in LessConfirmed(cfg, w.db.txs)
  {
    ReachableInv(cfg, w);
    hide Reachable;
    assert RowOk(cfg, i, w.db.txs[i]);
  }

  // ------------------------------------------------------- internal transfers

  /** A committed transfer between our accounts leaves a fresh deposit, worth the amount
      minus the fee when the fee is fixed and the whole amount otherwise, and, unless it
      goes to cold storage, the withdrawal with its amount, both fully confirmed and
      completely reported; nothing else is touched.  It changes nothing if and only if it
      is not committed or its fee is fixed and exceeds the amount. */
  lemma InternalTransferConserves(cfg: Config, w: World, t: Tx, out: Commit, newId: TxId)
    requires Inv(cfg, w) && w.proc.Idle? && UnsentRecord(cfg, w, t)
    requires t.address in w.db.accounts && FreshId(w, newId) && newId != t.id
    ensures var w' := Dispatch(cfg, w, t, out, newId);
            && (w' == w <==> out.Dropped? || (t.feeType == FixedFee && t.amount < t.fee))
            && (w' != w ==>
                  && w'.sent == w.sent && w'.proc == w.proc && w'.db.lock == w.db.lock
                  && w'.moved == w.moved + [Move(t.id, t.cold)]
                  && w'.db.txs.Keys == w.db.txs.Keys + {newId} + (if t.cold then {} else {t.id})
                  && (forall i :: i in w.db.txs && (i != t.id || t.cold) ==> w'.db.txs[i] == w.db.txs[i])
                  && (!t.cold ==> Transferred(cfg, w'.db, t.id, Outgoing, t.address, t.amount))
                  && (t.feeType == FixedFee ==> Transferred(cfg, w'.db, newId, Incoming, t.address, t.amount - t.fee))
                  && (t.feeType != FixedFee ==> Transferred(cfg, w'.db, newId, Incoming, t.address, t.amount)))
  {
    hide Inv, UnsentRecord, InternalTransfer, Transferred, FreshId;
    if EffectiveFee(t) <= t.amount {
      TransferDone(cfg, w, t, newId);
    }
  }

  lemma TransferDone(cfg: Config, w: World, t: Tx, newId: TxId)
    requires Inv(cfg, w) && w.proc.Idle? && UnsentRecord(cfg, w, t)
    requires FreshId(w, newId) && newId != t.id && EffectiveFee(t) <= t.amount
    ensures var r := InternalTransfer(cfg, w.db, t, newId);
            && r.Stored? && r.db.lock == w.db.lock
            && r.db.txs.Keys == w.db.txs.Keys + {newId} + (if t.cold then {} else {t.id})
            && (forall i :: i in w.db.txs && (i != t.id || t.cold) ==> r.db.txs[i] == w.db.txs[i])
            && (!t.cold ==> Transferred(cfg, r.db, t.id, Outgoing, t.address, t.amount))
            && Transferred(cfg, r.db, newId, Incoming, t.address, t.amount - EffectiveFee(t))
  {
    hide InternalTransfer, TransferTable, SentOk, HoldOk, ChainOk, UnsentRecord;
    TransferReady(cfg, w, t, newId);
    InternalTransferKeeps(cfg, w.db, w.past, t, newId);
    var db' := InternalTransfer(cfg, w.db, t, newId).db;
    TransferRows(cfg, w.db.txs, w.past, t, newId);
    assert !t.cold ==> StreamOk(cfg, Stream(db'.events, t.id), Outgoing, Base(w.past, t.id), cfg.maxConfirmations);
    assert StreamOk(cfg, Stream(db'.events, newId), Incoming, Base(w.past, newId), cfg.maxConfirmations);
  }

  /** One side of a finished transfer, with its complete event stream. */
  predicate Transferred(cfg: Config, db: Db, id: TxId, d: Direction, address: string, amount: int) {
    && id in db.txs
    && db.txs[id].direction == d && db.txs[id].address == address && db.txs[id].amount == amount
    && db.txs[id].status.FullyConfirmed? && db.txs[id].confirmations == cfg.maxConfirmations
    && StreamOk(cfg, Stream(db.events, id), d, 0, cfg.maxConfirmations)
  }

  lemma TransferRows(cfg: Config, txs: map<TxId, Tx>, past: Past, t: Tx, newId: TxId)
    requires Transferable(cfg, txs, past, t, newId)
    ensures var txs' := TransferTable(cfg, txs, t, newId);
            && txs'.Keys == txs.Keys + {newId} + (if t.cold then {} else {t.id})
            && (forall i :: i in txs && (i != t.id || t.cold) ==> txs'[i] == txs[i])
            && (!t.cold ==>
                  && txs'[t.id].direction.Outgoing? && txs'[t.id].address == t.address
                  && txs'[t.id].amount == t.amount && FullyReported(cfg, txs'[t.id]))
            && txs'[newId].direction.Incoming? && txs'[newId].address == t.address
            && txs'[newId].amount == t.amount - EffectiveFee(t) && FullyReported(cfg, txs'[newId])
  {
  }

  /** A row as a transfer leaves it. */
  predicate FullyReported(cfg: Config, r: Tx) {
    r.status.FullyConfirmed? && r.confirmations == r.reported == cfg.maxConfirmations
  }

  // ------------------------------------------------- the event that gets lost

  const EXAMPLE_CONFIG := Config(6, "hot", "cold", 0, 0, 0, 1000)

  const EXAMPLE_REQUEST := Request(1, "recipient", 500, 10, FixedFee)

  /** A withdrawal whose first attempt to be saved is rolled back after the
      notification, and whose second attempt succeeds. */
  function ExampleActions(): seq<Action> {
    [Restart, Withdraw(EXAMPLE_REQUEST, false, Committed, 2), NodeReplies(Accepted("hash")),
     Persist(NotSaved(true)), Persist(Saved)]
  }

  lemma RunSnoc(cfg: Config, w: World, actions: seq<Action>, a: Action)
    ensures Run(cfg, w, actions + [a]) == Next(cfg, Run(cfg, w, actions), a)
    ensures LegalRun(cfg, w, actions + [a]) <==> LegalRun(cfg, w, actions) && Legal(cfg, Run(cfg, w, actions), a)
  {
    assert (actions + [a])[..|actions|] == actions;
  }

  /** The record of the example withdrawal once the node has accepted it. */
  const EXAMPLE_TX := Tx(1, "hash", "", 0, "recipient", Outgoing, New, 500, 10, FixedFee, false, -1)

  lemma ExampleLock()
    ensures var w2 := Run(EXAMPLE_CONFIG, Genesis({}), ExampleActions()[..2]);
            && LegalRun(EXAMPLE_CONFIG, Genesis({}), ExampleActions()[..2])
            && w2.proc == Locked(EXAMPLE_TX.(hash := "")) && w2.db.txs == map[] && w2.db.events == [] && w2.sent == []
            && w2.past == Past({}, {}, []) && w2.db.accounts == {}
  {
    var c, g, xs := EXAMPLE_CONFIG, Genesis({}), ExampleActions();
    assert xs[..1] == [] + [xs[0]] && xs[..2] == xs[..1] + [xs[1]];
    RunSnoc(c, g, [], xs[0]);
    RunSnoc(c, g, xs[..1], xs[1]);
  }

  lemma ExampleRetry()
    ensures var w4 := Run(EXAMPLE_CONFIG, Genesis({}), ExampleActions()[..4]);
            && LegalRun(EXAMPLE_CONFIG, Genesis({}), ExampleActions()[..4])
            && w4.proc == Sent(EXAMPLE_TX.(reported := 0), 9) && w4.db.txs == map[] && w4.db.events == []
            && w4.past == Past({1}, {}, [])
  {
    var c, g, xs := EXAMPLE_CONFIG, Genesis({}), ExampleActions();
    ExampleLock();
    assert xs[..3] == xs[..2] + [xs[2]] && xs[..4] == xs[..3] + [xs[3]];
    RunSnoc(c, g, xs[..2], xs[2]);
    RunSnoc(c, g, xs[..3], xs[3]);
    hide Run, LegalRun, SaveSent;
  }

  /** The row ends up marked as reported, although no event was ever written for it. */
  lemma RolledBackNotificationLosesAnEvent()
    ensures var w := Run(EXAMPLE_CONFIG, Genesis({}), ExampleActions());
            && LegalRun(EXAMPLE_CONFIG, Genesis({}), ExampleActions())
            && 1 in w.past.lost && 1 in w.db.txs && w.db.txs[1].reported == 0
            && Stream(w.db.events, 1) == [] && w.db.lock.None? && w.proc.Idle?
  {
    var c, g, xs := EXAMPLE_CONFIG, Genesis({}), ExampleActions();
    ExampleRetry();
    assert xs == xs[..4] + [xs[4]];
    RunSnoc(c, g, xs[..4], xs[4]);
    var w4 := Run(c, g, xs[..4]);
    SaveSentShape(c, w4.db, w4.past, EXAMPLE_TX.(reported := 0));
    hide Run, LegalRun, SaveSent;
  }
}
