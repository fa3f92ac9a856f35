/** What handling one withdrawal can touch: its own row, the deposit of an internal
    transfer, and the history of broadcasts. */
module WithdrawalFrame {
  import opened Types
  import opened Ledger
  import opened LedgerInvariant
  import opened LedgerSteps
  import opened WalletMachine
  import opened WalletInvariant
  import opened WalletSteps

  /** Every row but that of `id` is as it was, `newId` may be a new row without a hash,
      and hashes not seen before are among `hashes`. */
  ghost predicate TableTouched(txs: map<TxId, Tx>, txs': map<TxId, Tx>, id: TxId, newId: TxId, hashes: set<string>) {
    && txs.Keys <= txs'.Keys <= txs.Keys + {id, newId}
    && (forall i :: i in txs && i != id ==> txs'[i] == txs[i])
    && (id in txs' ==>
          && txs'[id].direction.Outgoing?
          && (txs'[id].hash in hashes + {""} || (id in txs && txs[id].hash == txs'[id].hash)))
    && (newId in txs' && newId !in txs && newId != id ==> txs'[newId].hash == "")
  }

  ghost predicate SentTouched(sent: seq<Broadcast>, sent': seq<Broadcast>, hashes: set<string>) {
    && |sent| <= |sent'| && sent'[..|sent|] == sent
    && forall k :: |sent| <= k < |sent'| ==> sent'[k].hash in hashes
  }

  ghost predicate Touched(w: World, w': World, id: TxId, newId: TxId, hashes: set<string>) {
    && TableTouched(w.db.txs, w'.db.txs, id, newId, hashes)
    && SentTouched(w.sent, w'.sent, hashes)
    && w'.db.(txs := w.db.txs, events := w.db.events, lock := w.db.lock) == w.db
    && w'.chain == w.chain && w'.listed == w.listed
  }

  /** The updater is busy with withdrawal `id`, or with none. */
  ghost predicate BusyWith(p: Process, id: TxId, hashes: set<string>) {
    match p
    case Down => true
    case Idle => true
    case Locked(t) => t.id == id
    case Sent(t, _) => t.id == id && t.hash in hashes
    case Failed(t, _, _) => t.id == id
  }

  lemma TouchedTrans(a: World, b: World, c: World, id: TxId, newId: TxId, hashes: set<string>)
    requires Touched(a, b, id, newId, hashes) && Touched(b, c, id, newId, hashes)
    ensures Touched(a, c, id, newId, hashes)
  {
    TableTouchedTrans(a.db.txs, b.db.txs, c.db.txs, id, newId, hashes);
    hide TableTouched;
    assert c.sent[..|a.sent|] == c.sent[..|b.sent|][..|a.sent|];
    forall k | |a.sent| <= k < |c.sent| ensures c.sent[k].hash in hashes {
      if k < |b.sent| {
        assert c.sent[..|b.sent|][k] == b.sent[k];
      }
    }
  }

  lemma TableTouchedTrans(
    a: map<TxId, Tx>, b: map<TxId, Tx>, c: map<TxId, Tx>, id: TxId, newId: TxId, hashes: set<string>)
    requires TableTouched(a, b, id, newId, hashes) && TableTouched(b, c, id, newId, hashes)
    ensures TableTouched(a, c, id, newId, hashes)
  {
  }

  lemma TouchedNothing(w: World, id: TxId, newId: TxId, hashes: set<string>)
    requires id in w.db.txs ==> w.db.txs[id].direction.Outgoing?
    ensures Touched(w, w, id, newId, hashes)
  {
  }

  lemma TransferTouches(cfg: Config, txs: map<TxId, Tx>, past: Past, t: Tx, newId: TxId)
    requires RowsOk(cfg, txs) && Transferable(cfg, txs, past, t, newId)
    ensures TableTouched(txs, TransferTable(cfg, txs, t, newId), t.id, newId, {})
  {
    assert t.id in txs ==> RowOk(cfg, t.id, txs[t.id]);
  }

  lemma DispatchTouches(cfg: Config, w: World, t: Tx, out: Commit, newId: TxId, hashes: set<string>)
    requires Inv(cfg, w) && w.proc.Idle? && UnsentRecord(cfg, w, t) && FreshId(w, newId) && newId != t.id
    ensures var w' := Dispatch(cfg, w, t, out, newId);
      Touched(w, w', t.id, newId, hashes) && BusyWith(w'.proc, t.id, hashes)
  {
    hide DbOk, SentOk, HoldOk, ChainOk, Gate, InternalTransfer, TransferTable, Transferable;
    TouchedNothing(w, t.id, newId, hashes);
    if t.address in w.db.accounts && EffectiveFee(t) <= t.amount {
      TransferReady(cfg, w, t, newId);
      DbFacts(cfg, w.db, w.past);
      InternalTransferKeeps(cfg, w.db, w.past, t, newId);
      TransferTouches(cfg, w.db.txs, w.past, t, newId);
    }
  }

  lemma ReplyTouches(cfg: Config, w: World, t: Tx, r: Reply, newId: TxId, hashes: set<string>)
    requires Inv(cfg, w) && w.proc == Locked(t) && (r.Accepted? ==> r.hash in hashes)
    ensures Touched(w, DoReply(w, t, r), t.id, newId, hashes) && BusyWith(DoReply(w, t, r).proc, t.id, hashes)
  {
    hide DbOk, SentOk, HoldOk, ChainOk, Gate;
    TouchedNothing(w, t.id, newId, hashes);
  }

  lemma PersistSentTouches(cfg: Config, w: World, t: Tx, tries: nat, a: Attempt, newId: TxId, hashes: set<string>)
    requires Inv(cfg, w) && w.proc == Sent(t, tries) && t.hash in hashes
    ensures var w' := DoPersistSent(cfg, w, t, tries, a);
      Touched(w, w', t.id, newId, hashes) && BusyWith(w'.proc, t.id, hashes)
  {
    hide SentOk, HoldOk, ChainOk, RowsOk, UniqueKeys, StreamsOk, PeaksOk, SaveSent, Swallow;
    SaveSentShape(cfg, w.db, w.past, t);
    TouchedNothing(w, t.id, newId, hashes);
  }

  lemma PersistFailedTouches(
    cfg: Config, w: World, t: Tx, makePending: bool, tries: nat, a: Attempt, newId: TxId, hashes: set<string>)
    requires Inv(cfg, w) && w.proc == Failed(t, makePending, tries)
    ensures var w' := DoPersistFailed(w, t, makePending, tries, a);
      Touched(w, w', t.id, newId, hashes) && BusyWith(w'.proc, t.id, hashes)
  {
    hide DbOk, HoldOk, ChainOk, Gate, UpdatePendingTxStatus;
    NotSentYet(w, t.id);
    TouchedNothing(w, t.id, newId, hashes);
    if makePending {
      PendingStatusKeeps(cfg, w.db, w.past, t, Pending);
    }
  }

  /** The steps of sendWithdrawal after its first one. */
  predicate SendStep(a: Action, reply: Reply) {
    a.Persist? || a == NodeReplies(reply)
  }

  function HashesOf(reply: Reply): set<string> {
    if reply.Accepted? then {reply.hash} else {}
  }

  lemma SendStepTouches(cfg: Config, w: World, a: Action, id: TxId, newId: TxId, reply: Reply)
    requires Inv(cfg, w) && BusyWith(w.proc, id, HashesOf(reply)) && SendStep(a, reply)
    requires id in w.db.txs ==> w.db.txs[id].direction.Outgoing?
    ensures Touched(w, Next(cfg, w, a), id, newId, HashesOf(reply))
    ensures BusyWith(Next(cfg, w, a).proc, id, HashesOf(reply))
  {
    hide Inv, Touched, DoPersistSent, DoPersistFailed, DoReply;
    TouchedNothing(w, id, newId, HashesOf(reply));
    if a.Persist? && w.proc.Sent? {
      PersistSentTouches(cfg, w, w.proc.tx, w.proc.tries, a.attempt, newId, HashesOf(reply));
    } else if a.Persist? && w.proc.Failed? {
      PersistFailedTouches(cfg, w, w.proc.tx, w.proc.makePending, w.proc.tries, a.attempt, newId, HashesOf(reply));
    } else if a.NodeReplies? && w.proc.Locked? {
      ReplyTouches(cfg, w, w.proc.tx, a.reply, newId, HashesOf(reply));
    }
  }

  lemma {:induction false} SendRunTouches(
    cfg: Config, w: World, trace: seq<Action>, id: TxId, newId: TxId, reply: Reply)
    requires Inv(cfg, w) && BusyWith(w.proc, id, HashesOf(reply)) && LegalRun(cfg, w, trace)
    requires id in w.db.txs ==> w.db.txs[id].direction.Outgoing?
    requires forall a :: a in trace ==> SendStep(a, reply)
    ensures Inv(cfg, Run(cfg, w, trace))
    ensures Touched(w, Run(cfg, w, trace), id, newId, HashesOf(reply))
    ensures BusyWith(Run(cfg, w, trace).proc, id, HashesOf(reply))
  {
    hide Inv, Touched, Next, Legal, BusyWith;
    if trace == [] {
      TouchedNothing(w, id, newId, HashesOf(reply));
    } else {
      var init, a := trace[..|trace| - 1], trace[|trace| - 1];
      SendRunTouches(cfg, w, init, id, newId, reply);
      var p := Run(cfg, w, init);
      StepKeeps(cfg, p, a);
      TouchedOutgoing(w, p, id, newId, HashesOf(reply));
      SendStepTouches(cfg, p, a, id, newId, reply);
      TouchedTrans(w, p, Next(cfg, p, a), id, newId, HashesOf(reply));
    }
  }

  lemma TouchedOutgoing(w: World, w': World, id: TxId, newId: TxId, hashes: set<string>)
    requires Touched(w, w', id, newId, hashes)
    ensures id in w'.db.txs ==> w'.db.txs[id].direction.Outgoing?
  {
  }
}
