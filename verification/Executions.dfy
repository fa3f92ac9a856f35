/** How often a withdrawal is carried out, by broadcast or by a transfer between our own
    accounts, over whole runs. */
module Executions {
  import opened Types
  import opened Ledger
  import opened LedgerInvariant
  import opened LedgerSteps
  import opened WalletMachine
  import opened WalletInvariant
  import opened WalletSteps
  import opened WalletTheorems
  import opened WalletCalls

  // ------------------------------------------------------------------- counting

  function Broadcasts(sent: seq<Broadcast>, id: TxId): nat {
    if sent == [] then 0
    else Broadcasts(sent[..|sent| - 1], id) + if sent[|sent| - 1].id == id then 1 else 0
  }

  function Moves(moved: seq<Move>, m: Move): nat {
    if moved == [] then 0
    else Moves(moved[..|moved| - 1], m) + if moved[|moved| - 1] == m then 1 else 0
  }

  /** How often withdrawal `id` was carried out. */
  function Executions(w: World, id: TxId): nat {
    Broadcasts(w.sent, id) + Moves(w.moved, Move(id, false)) + Moves(w.moved, Move(id, true))
  }

  lemma {:induction false} BroadcastsBound(sent: seq<Broadcast>, id: TxId)
    requires DistinctSent(sent)
    ensures Broadcasts(sent, id) <= 1
    ensures Broadcasts(sent, id) == 1 <==> InSent(sent, id)
  {
    if sent != [] {
      var init := sent[..|sent| - 1];
      assert forall k :: 0 <= k < |init| ==> init[k] == sent[k];
      BroadcastsBound(init, id);
      assert InSent(sent, id) <==> InSent(init, id) || sent[|init|].id == id by {
        if k :| 0 <= k < |init| && init[k].id == id {
          assert sent[k].id == id;
        }
      }
    }
  }

  ghost predicate DistinctMoves(moved: seq<Move>) {
    forall j, k :: 0 <= j < k < |moved| && !moved[j].cold && !moved[k].cold ==> moved[j].id != moved[k].id
  }

  lemma {:induction false} MovesBound(moved: seq<Move>, id: TxId)
    requires DistinctMoves(moved)
    ensures Moves(moved, Move(id, false)) <= 1
    ensures Moves(moved, Move(id, false)) == 1 <==> Move(id, false) in moved
  {
    if moved != [] {
      MovesBound(moved[..|moved| - 1], id);
    }
  }

  lemma {:induction false} NoMoves(moved: seq<Move>, m: Move)
    ensures Moves(moved, m) == 0 <==> m !in moved
  {
    if moved != [] {
      NoMoves(moved[..|moved| - 1], m);
    }
  }

  // -------------------------------------------------------------- the invariant

  /** The row a regular transfer leaves: an outgoing row that is reported without a broadcast. */
  ghost predicate CarriedOut(w: World, id: TxId) {
    id in w.db.txs && w.db.txs[id].direction.Outgoing? && w.db.txs[id].reported >= 0 && !InSent(w.sent, id)
  }

  ghost predicate MovesOk(w: World) {
    && DistinctMoves(w.moved)
    && forall m :: m in w.moved && !m.cold ==> CarriedOut(w, m.id)
  }

  /** A step broadcasts only the withdrawal in flight, whose row was never reported. */
  lemma OnlyInFlight(cfg: Config, w: World, a: Action, id: TxId)
    requires Inv(cfg, w) && Legal(cfg, w, a) && CarriedOut(w, id)
    ensures CarriedOut(Next(cfg, w, a), id)
  {
    StepKeeps(cfg, w, a);
    hide DbOk, SentOk, HoldOk, ChainOk, Gate, DoWithdraw, DoConfirm, DoResend, DoCancel, DoMark, DoPersistSent,
      DoPersistFailed, DoPoll, ScanNew, ScanKnown, ListingOk, RefreshOk, FreshHash;
    SentIs(cfg, w, a);
    if w.proc.Locked? && a.NodeReplies? && a.reply.Accepted? {
      var t := w.proc.tx;
      assert t.id != id by {
        if t.id == id {
          WaitingUnreported(cfg, w, id);
        }
      }
      InSentSnoc(w.sent, BroadcastOf(t.(status := New, hash := a.reply.hash)), id);
    }
    assert RowStep(w.db.txs[id], Next(cfg, w, a).db.txs[id]);
  }

  lemma WaitingUnreported(cfg: Config, w: World, id: TxId)
    requires Inv(cfg, w) && id in w.db.txs && Waiting(w.db.txs[id].status)
    ensures w.db.txs[id].reported == -1
  {
    assert RowOk(cfg, id, w.db.txs[id]);
  }

  lemma SentIs(cfg: Config, w: World, a: Action)
    ensures Next(cfg, w, a).sent
         == if w.proc.Locked? && a.NodeReplies? && a.reply.Accepted?
            then w.sent + [BroadcastOf(w.proc.tx.(status := New, hash := a.reply.hash))] else w.sent
  {
    hide ScanNew, ScanKnown, SaveSent, SaveFailed, InternalTransfer, UpdatePendingTxStatus, MarkAll, Admit;
  }

  /** A step carries out no transfer, or one of a withdrawal that was not carried out before. */
  ghost predicate OneMoveMore(w: World, w': World) {
    w'.moved == w.moved || exists m :: w'.moved == w.moved + [m] && (!m.cold ==> NewlyCarriedOut(w, w', m.id))
  }

  ghost predicate NewlyCarriedOut(w: World, w': World, id: TxId) {
    !CarriedOut(w, id) && CarriedOut(w', id)
  }

  lemma DispatchMoves(cfg: Config, w: World, t: Tx, out: Commit, newId: TxId)
    requires Inv(cfg, w) && w.proc.Idle? && UnsentRecord(cfg, w, t) && FreshId(w, newId) && newId != t.id
    ensures OneMoveMore(w, Dispatch(cfg, w, t, out, newId))
  {
    var w' := Dispatch(cfg, w, t, out, newId);
    if w'.moved != w.moved {
      InternalTransferConserves(cfg, w, t, out, newId);
      if !t.cold {
        TransferredRow(cfg, w, t, out, newId);
      }
      if t.id in w.db.txs {
        WaitingUnreported(cfg, w, t.id);
      }
      hide Inv, Dispatch;
      assert w'.moved == w.moved + [Move(t.id, t.cold)];
      assert !t.cold ==> NewlyCarriedOut(w, w', t.id);
    }
  }

  lemma TransferredRow(cfg: Config, w: World, t: Tx, out: Commit, newId: TxId)
    requires Inv(cfg, w) && w.proc.Idle? && UnsentRecord(cfg, w, t) && FreshId(w, newId) && newId != t.id
    requires t.address in w.db.accounts && EffectiveFee(t) <= t.amount && !out.Dropped? && !t.cold
    ensures var txs' := Dispatch(cfg, w, t, out, newId).db.txs;
      t.id in txs' && txs'[t.id].direction.Outgoing? && txs'[t.id].reported >= 0
  {
    TransferReady(cfg, w, t, newId);
    InternalTransferKeeps(cfg, w.db, w.past, t, newId);
    TransferRows(cfg, w.db.txs, w.past, t, newId);
    hide InternalTransfer, TransferTable, DbOk, SentOk, HoldOk, ChainOk, UnsentRecord;
    InvDb(cfg, w);
  }

  lemma StepMovesOne(cfg: Config, w: World, a: Action)
    requires Inv(cfg, w) && Legal(cfg, w, a)
    ensures OneMoveMore(w, Next(cfg, w, a))
  {
    hide Inv, Dispatch, UnsentRecord, DoPersistSent, DoPersistFailed, UpdatePendingTxStatus, MarkAll, ScanNew, ScanKnown,
      ListingOk, RefreshOk, FreshHash, CarriedOut, Ready;
    if a.Withdraw? && w.proc.Idle? {
      var admitted := Admit(cfg, a.request, a.toCold);
      if admitted.Some? && !admitted.value.1 && a.request.id !in w.db.txs {
        AdmittedReady(cfg, w, a.request, a.toCold, a.newId, Refused(false));
        ReadyIs(cfg, w, admitted.value.0, a.newId, Refused(false));
        DispatchMoves(cfg, w, admitted.value.0, a.out, a.newId);
      }
    } else if a.Confirm? && w.proc.Idle? {
      if a.id in w.db.txs && w.db.txs[a.id].status.PendingManual? {
        ConfirmReady(cfg, w, a.id);
        StoredIsUnsent(cfg, w, a.id);
        var w1 := w.(confirmed := w.confirmed + {a.id});
        DispatchMoves(cfg, w1, w.db.txs[a.id], a.out, a.newId);
        SameButConfirmed(w, w1, Next(cfg, w, a));
      }
    } else if a.Resend? && w.proc.Idle? {
      if a.id in w.db.txs && Scheduled(w.db.txs[a.id].status) {
        ResendReady(cfg, w, a.id);
        StoredIsUnsent(cfg, w, a.id);
        DispatchMoves(cfg, w, w.db.txs[a.id], a.out, a.newId);
      }
    } else {
      MovedStays(cfg, w, a);
    }
  }

  lemma SameButConfirmed(w: World, w1: World, w': World)
    requires w1 == w.(confirmed := w1.confirmed) && OneMoveMore(w1, w')
    ensures OneMoveMore(w, w')
  {
    if w'.moved != w.moved {
      var m :| w'.moved == w1.moved + [m] && (!m.cold ==> NewlyCarriedOut(w1, w', m.id));
      assert !m.cold ==> NewlyCarriedOut(w, w', m.id);
    }
  }

  /** All other steps carry out nothing. */
  lemma MovedStays(cfg: Config, w: World, a: Action)
    requires !(w.proc.Idle? && (a.Withdraw? || a.Confirm? || a.Resend?))
    ensures Next(cfg, w, a).moved == w.moved
  {
    hide ScanNew, ScanKnown, SaveSent, SaveFailed, UpdatePendingTxStatus, MarkAll, Dispatch, DoWithdraw, DoConfirm, DoResend;
  }

  lemma StepMoves(cfg: Config, w: World, a: Action)
    requires Inv(cfg, w) && Legal(cfg, w, a) && MovesOk(w)
    ensures MovesOk(Next(cfg, w, a))
  {
    var w' := Next(cfg, w, a);
    hide Inv, Legal, Next, CarriedOut;
    StepMovesOne(cfg, w, a);
    forall m | m in w.moved && !m.cold
      ensures CarriedOut(w', m.id)
    {
      OnlyInFlight(cfg, w, a, m.id);
    }
    if w'.moved != w.moved {
      var m :| w'.moved == w.moved + [m] && (!m.cold ==> NewlyCarriedOut(w, w', m.id));
      assert !m.cold ==> Move(m.id, false) !in w.moved;
    }
  }

  lemma {:induction false} RunMoves(cfg: Config, accounts: set<string>, actions: seq<Action>)
    requires cfg.maxConfirmations >= 1 && LegalRun(cfg, Genesis(accounts), actions)
    ensures MovesOk(Run(cfg, Genesis(accounts), actions))
  {
    hide Inv, Legal, Next, CarriedOut;
    GenesisInv(cfg, accounts);
    if actions != [] {
      var init := actions[..|actions| - 1];
      RunMoves(cfg, accounts, init);
      RunKeeps(cfg, Genesis(accounts), init);
      StepMoves(cfg, Run(cfg, Genesis(accounts), init), actions[|actions| - 1]);
    }
  }

  lemma ReachableMoves(cfg: Config, w: World)
    requires cfg.maxConfirmations >= 1 && Reachable(cfg, w)
    ensures Inv(cfg, w) && MovesOk(w)
  {
    hide Inv, Run, LegalRun, Genesis, MovesOk;
    ReachableInv(cfg, w);
    var accounts, actions :|
      LegalRun(cfg, Genesis(accounts), actions) && w == Run(cfg, Genesis(accounts), actions);
    RunMoves(cfg, accounts, actions);
  }

  // --------------------------------------------------------------- the theorems

  /** Over every run, crashes and restarts included: apart from transfers to cold storage
      at one of our own addresses, no withdrawal id is carried out twice, whether by
      broadcast or by internal transfer.  When nothing is in flight, an id that may be
      used again was carried out by such transfers only. */
  lemma ExecutedOnce(cfg: Config, w: World, id: TxId)
    requires cfg.maxConfirmations >= 1 && Reachable(cfg, w)
    ensures Executions(w, id) <= 1 + Moves(w.moved, Move(id, true))
    ensures Move(id, true) !in w.moved ==> Executions(w, id) <= 1
    ensures w.proc.Idle? && id !in w.db.txs ==> Executions(w, id) == Moves(w.moved, Move(id, true))
  {
    ReachableMoves(cfg, w);
    hide Reachable, Broadcasts, Moves;
    InvSent(cfg, w);
    BroadcastsBound(w.sent, id);
    MovesBound(w.moved, id);
    NoMoves(w.moved, Move(id, false));
    NoMoves(w.moved, Move(id, true));
    assert Move(id, false) in w.moved ==> CarriedOut(w, id);
    if w.proc.Idle? && id !in w.db.txs {
      NotSentYet(w, id);
    }
  }

  lemma InvSent(cfg: Config, w: World)
    requires Inv(cfg, w)
    ensures SentOk(w) && DistinctSent(w.sent)
  {
  }

  /** A request for one of our own addresses that is admitted, not held and can pay its fee. */
  predicate OwnTransfer(cfg: Config, w: World, r: Request, toCold: bool) {
    && r.id != NIL_ID && r.id !in w.db.txs
    && Admit(cfg, r, toCold).Some?
    && !Admit(cfg, r, toCold).value.1
    && Admit(cfg, r, toCold).value.0.address in w.db.accounts
    && !(r.feeType == FixedFee && r.amount < r.fee)
  }

  /** From w to w' the request was carried out: a deposit under newId and, unless it goes
      to cold storage, a row of the withdrawal. */
  ghost predicate OwnMoved(cfg: Config, w: World, w': World, r: Request, toCold: bool, newId: TxId)
    requires Admit(cfg, r, toCold).Some?
  {
    var t := Admit(cfg, r, toCold).value.0;
    && w'.proc.Idle? && w'.past == w.past && w'.sent == w.sent && w'.db.accounts == w.db.accounts
    && w'.moved == w.moved + [Move(r.id, toCold)]
    && w'.db.txs.Keys == w.db.txs.Keys + {newId} + (if toCold then {} else {r.id})
    && (toCold ==> forall i :: i in w.db.txs ==> w'.db.txs[i] == w.db.txs[i])
    && Transferred(cfg, w'.db, newId, Incoming, t.address, if t.feeType == FixedFee then t.amount - t.fee else t.amount)
  }

  lemma OwnTransferStep(cfg: Config, w: World, r: Request, toCold: bool, newId: TxId)
    requires Inv(cfg, w) && w.proc.Idle? && OwnTransfer(cfg, w, r, toCold) && FreshId(w, newId) && newId != r.id
    ensures var w' := Next(cfg, w, Withdraw(r, toCold, Committed, newId));
      Inv(cfg, w') && OwnMoved(cfg, w, w', r, toCold, newId)
  {
    var t := Admit(cfg, r, toCold).value.0;
    AdmittedReady(cfg, w, r, toCold, newId, Refused(false));
    ReadyIs(cfg, w, t, newId, Refused(false));
    AdmittedAs(cfg, r, toCold);
    hide Inv, UnsentRecord, Ready, FreshId, Dispatch, OwnMoved, Admit;
    WithdrawIsDispatch(cfg, w, r, toCold, newId);
    DispatchKeeps(cfg, w, t, Committed, newId);
    InternalTransferConserves(cfg, w, t, Committed, newId);
    OwnDispatch(cfg, w, t, newId);
    hide Next, Transferred;
    OwnMovedBy(cfg, w, r, toCold, newId);
  }

  lemma AdmittedAs(cfg: Config, r: Request, toCold: bool)
    requires Admit(cfg, r, toCold).Some?
    ensures var t := Admit(cfg, r, toCold).value.0; t.id == r.id && t.cold == toCold && t.amount == r.amount
  {
  }

  lemma WithdrawIsDispatch(cfg: Config, w: World, r: Request, toCold: bool, newId: TxId)
    requires w.proc.Idle? && OwnTransfer(cfg, w, r, toCold)
    ensures Next(cfg, w, Withdraw(r, toCold, Committed, newId))
         == Dispatch(cfg, w, Admit(cfg, r, toCold).value.0, Committed, newId)
  {
    AdmittedAs(cfg, r, toCold);
    hide Dispatch, Admit;
  }

  /** A transfer touches neither the history of broadcasts nor that of swallowed events. */
  lemma OwnDispatch(cfg: Config, w: World, t: Tx, newId: TxId)
    requires Inv(cfg, w) && w.proc.Idle? && UnsentRecord(cfg, w, t) && t.address in w.db.accounts
    requires EffectiveFee(t) <= t.amount && FreshId(w, newId) && newId != t.id
    ensures var w' := Dispatch(cfg, w, t, Committed, newId);
      w'.past == w.past && w'.db.accounts == w.db.accounts
  {
    TransferReady(cfg, w, t, newId);
    hide SentOk, HoldOk, ChainOk, DbOk;
    InternalTransferKeeps(cfg, w.db, w.past, t, newId);
    hide InternalTransfer, TransferTable;
  }

  lemma OwnMovedBy(cfg: Config, w: World, r: Request, toCold: bool, newId: TxId)
    requires w.proc.Idle? && Admit(cfg, r, toCold).Some?
    requires var t := Admit(cfg, r, toCold).value.0;
      var w' := Next(cfg, w, Withdraw(r, toCold, Committed, newId));
      && t.id == r.id && t.cold == toCold
      && w'.sent == w.sent && w'.proc == w.proc && w'.moved == w.moved + [Move(t.id, t.cold)]
      && w'.past == w.past && w'.db.accounts == w.db.accounts
      && w'.db.txs.Keys == w.db.txs.Keys + {newId} + (if t.cold then {} else {t.id})
      && (forall i :: i in w.db.txs && (i != t.id || t.cold) ==> w'.db.txs[i] == w.db.txs[i])
      && Transferred(cfg, w'.db, newId, Incoming, t.address, if t.feeType == FixedFee then t.amount - t.fee else t.amount)
    ensures OwnMoved(cfg, w, Next(cfg, w, Withdraw(r, toCold, Committed, newId)), r, toCold, newId)
  {
    hide Next, Transferred, Admit;
  }

  /** A transfer that left its row refuses the same request. */
  lemma RefusedAgain(cfg: Config, w: World, r: Request, toCold: bool, newId: TxId)
    requires r.id in w.db.txs && Admit(cfg, r, toCold).Some?
    ensures Next(cfg, w, Withdraw(r, toCold, Committed, newId)) == w
  {
    hide Dispatch, UpdatePendingTxStatus;
  }

  /** The same request made again: it is carried out again if and only if it goes to cold
      storage.  A cold transfer leaves a deposit and no withdrawal, so its id stays free. */
  lemma RepeatedRequestIff(cfg: Config, w: World, r: Request, toCold: bool, newId: TxId, newId': TxId)
    requires Inv(cfg, w) && w.proc.Idle? && OwnTransfer(cfg, w, r, toCold)
    requires FreshId(w, newId) && FreshId(w, newId') && newId != r.id && newId' != r.id && newId != newId'
    ensures var w1 := Next(cfg, w, Withdraw(r, toCold, Committed, newId));
      var w2 := Next(cfg, w1, Withdraw(r, toCold, Committed, newId'));
      && OwnMoved(cfg, w, w1, r, toCold, newId)
      && (OwnMoved(cfg, w1, w2, r, toCold, newId') <==> toCold)
      && (!toCold ==> w2 == w1)
  {
    hide Inv, Next, Transferred, Dispatch;
    OwnTransferStep(cfg, w, r, toCold, newId);
    var w1 := Next(cfg, w, Withdraw(r, toCold, Committed, newId));
    if toCold {
      OwnTransferStep(cfg, w1, r, toCold, newId');
    } else {
      hide Admit;
      RefusedAgain(cfg, w1, r, toCold, newId');
    }
  }

  /** What two cold transfers of one request leave: two complete deposits, no withdrawal. */
  lemma TwoColdDeposits(cfg: Config, w: World, w1: World, w2: World, r: Request, newId: TxId, newId': TxId)
    requires Inv(cfg, w1) && Inv(cfg, w2) && Admit(cfg, r, true).Some?
    requires OwnMoved(cfg, w, w1, r, true, newId) && OwnMoved(cfg, w1, w2, r, true, newId')
    ensures var t := Admit(cfg, r, true).value.0;
      && w2.moved == w.moved + [Move(r.id, true), Move(r.id, true)] && w2.sent == w.sent
      && w2.db.txs.Keys == w.db.txs.Keys + {newId, newId'}
      && Transferred(cfg, w2.db, newId, Incoming, t.address, if t.feeType == FixedFee then t.amount - t.fee else t.amount)
      && Transferred(cfg, w2.db, newId', Incoming, t.address, if t.feeType == FixedFee then t.amount - t.fee else t.amount)
  {
    hide Inv, Admit;
    var t := Admit(cfg, r, true).value.0;
    TransferredStays(cfg, w1, w2, newId, t.address, if t.feeType == FixedFee then t.amount - t.fee else t.amount);
  }

  /** The streams of an untouched row stay complete. */
  lemma TransferredStays(cfg: Config, w: World, w': World, id: TxId, address: string, amount: int)
    requires Inv(cfg, w) && Inv(cfg, w') && w'.past == w.past
    requires Transferred(cfg, w.db, id, Incoming, address, amount)
    requires id in w'.db.txs && w'.db.txs[id] == w.db.txs[id]
    ensures Transferred(cfg, w'.db, id, Incoming, address, amount)
  {
    InvStreams(cfg, w, id);
    InvStreams(cfg, w', id);
    hide Inv, Stream;
    var s := Stream(w.db.events, id);
    assert s[0].tx.confirmations == 0;
  }

  lemma InvStreams(cfg: Config, w: World, id: TxId)
    requires Inv(cfg, w) && id in w.db.txs
    ensures cfg.maxConfirmations >= 1 && w.db.txs[id].reported >= -1
    ensures var row := w.db.txs[id]; StreamOk(cfg, Stream(w.db.events, id), row.direction, Base(w.past, id), row.reported)
  {
    assert RowOk(cfg, id, w.db.txs[id]);
  }

  // ------------------------------------------- the same cold transfer carried out twice

  const COLD_REQUEST := Request(1, "own", 500, 10, FixedFee)

  function ColdActions(): seq<Action> {
    [Restart, Withdraw(COLD_REQUEST, true, Committed, 2), Withdraw(COLD_REQUEST, true, Committed, 3)]
  }

  /** Two identical cold storage requests to an own address leave two deposits of 490. */
  lemma ColdTransferTwice()
    ensures var w := Run(EXAMPLE_CONFIG, Genesis({"own"}), ColdActions());
      && LegalRun(EXAMPLE_CONFIG, Genesis({"own"}), ColdActions())
      && w.moved == [Move(1, true), Move(1, true)] && Executions(w, 1) == 2
      && w.db.txs.Keys == {2, 3}
      && Transferred(EXAMPLE_CONFIG, w.db, 2, Incoming, "own", 490)
      && Transferred(EXAMPLE_CONFIG, w.db, 3, Incoming, "own", 490)
  {
    var c, g, xs := EXAMPLE_CONFIG, Genesis({"own"}), ColdActions();
    assert xs[..1] == [] + [xs[0]] && xs[..2] == xs[..1] + [xs[1]] && xs == xs[..2] + [xs[2]];
    RunSnoc(c, g, [], xs[0]);
    RunSnoc(c, g, xs[..1], xs[1]);
    RunSnoc(c, g, xs[..2], xs[2]);
    GenesisInv(c, {"own"});
    var w0 := g.(proc := Idle);
    assert Run(c, g, xs[..1]) == w0;
    StepKeeps(c, g, Restart);
    hide Inv, Next, Transferred, Run, LegalRun, Admit, StreamOk;
    ColdTransfers(c, w0);
    CountTwo(Run(c, g, xs));
  }

  lemma ColdAdmitted()
    ensures Admit(EXAMPLE_CONFIG, COLD_REQUEST, true)
         == Some((Tx(1, "", "", 0, "own", Outgoing, New, 500, 10, FixedFee, true, -1), false))
  {
  }

  lemma ColdFirst(w: World)
    requires w == Genesis({"own"}).(proc := Idle) && Inv(EXAMPLE_CONFIG, w)
    ensures var w1 := Next(EXAMPLE_CONFIG, w, Withdraw(COLD_REQUEST, true, Committed, 2));
      && Inv(EXAMPLE_CONFIG, w1) && Admit(EXAMPLE_CONFIG, COLD_REQUEST, true).Some?
      && OwnMoved(EXAMPLE_CONFIG, w, w1, COLD_REQUEST, true, 2)
      && w1.proc.Idle? && w1.db.txs.Keys == {2} && OwnTransfer(EXAMPLE_CONFIG, w1, COLD_REQUEST, true)
  {
    hide Inv, Next, Transferred, Admit;
    ColdAdmitted();
    OwnTransferStep(EXAMPLE_CONFIG, w, COLD_REQUEST, true, 2);
  }

  lemma ColdTransfers(c: Config, w: World)
    requires c == EXAMPLE_CONFIG && w == Genesis({"own"}).(proc := Idle) && Inv(c, w)
    ensures var w1 := Next(c, w, ColdActions()[1]);
      var w2 := Next(c, w1, ColdActions()[2]);
      && Legal(c, w, ColdActions()[1]) && Legal(c, w1, ColdActions()[2])
      && w2.moved == [Move(1, true), Move(1, true)] && w2.sent == [] && w2.db.txs.Keys == {2, 3}
      && Transferred(c, w2.db, 2, Incoming, "own", 490) && Transferred(c, w2.db, 3, Incoming, "own", 490)
  {
    var r := COLD_REQUEST;
    hide Inv, Next, Transferred, Admit, OwnMoved, OwnTransfer, Legal;
    ColdFirst(w);
    ColdAdmitted();
    var w1 := Next(c, w, Withdraw(r, true, Committed, 2));
    ColdSteps(c, w, w1);
    OwnTransferStep(c, w1, r, true, 3);
    TwoColdDeposits(c, w, w1, Next(c, w1, Withdraw(r, true, Committed, 3)), r, 2, 3);
  }

  lemma ColdSteps(c: Config, w0: World, w1: World)
    requires w0 == Genesis({"own"}).(proc := Idle) && w1.db.txs.Keys == {2}
    ensures Legal(c, w0, Withdraw(COLD_REQUEST, true, Committed, 2))
    ensures Legal(c, w1, Withdraw(COLD_REQUEST, true, Committed, 3))
  {
  }

  lemma CountTwo(w: World)
    requires w.sent == [] && w.moved == [Move(1, true), Move(1, true)]
    ensures Executions(w, 1) == 2
  {
    var one := [Move(1, true)];
    assert one[..0] == [] && Moves(one, Move(1, true)) == 1;
    assert w.moved[..1] == one && Moves(w.moved, Move(1, true)) == 2;
    NoMoves(w.moved, Move(1, false));
  }
}
