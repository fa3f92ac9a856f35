/** The inductive invariant of the wallet machine. */
module WalletInvariant {
  import opened Types
  import opened LedgerInvariant
  import opened LedgerSteps
  import opened WalletMachine

  // ----------------------------------------------------------- the invariant

  ghost predicate InSent(sent: seq<Broadcast>, id: TxId) {
    exists k :: 0 <= k < |sent| && sent[k].id == id
  }

  /** The database knows a broadcast withdrawal as it was broadcast. */
  predicate Recorded(txs: map<TxId, Tx>, b: Broadcast) {
    b.id in txs && txs[b.id].direction.Outgoing? && BroadcastOf(txs[b.id]) == b
  }

  /** No withdrawal is between the node and the database. */
  predicate Settled(w: World) {
    w.proc.Idle? || w.proc.Locked? || w.proc.Failed? || w.db.lock.None?
  }

  ghost predicate DistinctSent(sent: seq<Broadcast>) {
    && (forall k :: 0 <= k < |sent| ==> sent[k].hash != "")
    && forall j, k :: 0 <= j < k < |sent| ==> sent[j].id != sent[k].id && sent[j].hash != sent[k].hash
  }

  predicate NeverSent(r: Tx) {
    r.status.Cancelled? || r.direction.Incoming?
  }

  ghost predicate SentOk(w: World) {
    && DistinctSent(w.sent)
    && (forall k :: 0 <= k < |w.sent| && (k < |w.sent| - 1 || Settled(w)) ==> Recorded(w.db.txs, w.sent[k]))
    && (forall i :: i in w.db.txs && w.db.txs[i].direction.Outgoing? && w.db.txs[i].hash != "" ==> InSent(w.sent, i))
    && (forall i :: i in w.past.lost + w.past.delayed ==> InSent(w.sent, i))
    && (forall i :: i in w.db.txs && NeverSent(w.db.txs[i]) ==> !InSent(w.sent, i))
  }

  /** A regular withdrawal above the threshold carries a processed confirm request. */
  predicate Gate(cfg: Config, confirmed: set<TxId>, id: TxId, amount: nat, cold: bool) {
    !cold && amount > cfg.holdAbove ==> id in confirmed
  }

  ghost predicate HoldOk(cfg: Config, w: World) {
    && (forall i :: i in w.db.txs && Released(w.db.txs[i]) ==>
          Gate(cfg, w.confirmed, i, w.db.txs[i].amount, w.db.txs[i].cold))
    && forall k :: 0 <= k < |w.sent| ==> Gate(cfg, w.confirmed, w.sent[k].id, w.sent[k].amount, w.sent[k].cold)
  }

  ghost predicate UnsentRecord(cfg: Config, w: World, t: Tx) {
    && Unsent(cfg, t)
    && RowMatches(w.db.txs, t)
    && (t.status.Pending? ==> t.id in w.db.txs && w.db.txs[t.id] == t)
    && !InSent(w.sent, t.id)
    && Gate(cfg, w.confirmed, t.id, t.amount, t.cold)
  }

  ghost predicate FlightOk(cfg: Config, w: World) {
    match w.proc
    case Down => true
    case Idle => true
    case Locked(t) => UnsentRecord(cfg, w, t) && w.db.lock.Some?
    case Failed(t, makePending, _) => UnsentRecord(cfg, w, t) && (makePending ==> !t.cold)
    case Sent(t, _) =>
      && |w.sent| > 0 && w.sent[|w.sent| - 1] == BroadcastOf(t)
      && SentRecord(cfg, w.db.txs, w.past, t)
      && (w.db.lock.None? ==> Recorded(w.db.txs, BroadcastOf(t)))
  }

  ghost predicate Known(txs: map<TxId, Tx>, e: Entry) {
    exists i :: i in txs && Entry(txs[i].hash, txs[i].direction, txs[i].address) == e
  }

  ghost predicate ChainOk(w: World) {
    && (forall i, j :: 0 <= i < j < |w.chain| ==> w.chain[i].hash != w.chain[j].hash)
    && (forall i :: 0 <= i < |w.chain| ==> BlockOk(w.chain[i]))
    && (w.db.lastBlock == "" || Covered(w.chain, w.db.lastBlock, 0))
    && forall i, o :: 0 <= i < |w.chain| && o in w.chain[i].outputs && Covered(w.chain, w.db.lastBlock, i) ==>
         Known(w.db.txs, o.entry)
  }

  ghost predicate Inv(cfg: Config, w: World) {
    && !w.panicked
    && DbOk(cfg, w.db, w.past)
    && SentOk(w)
    && HoldOk(cfg, w)
    && FlightOk(cfg, w)
    && ChainOk(w)
  }

  lemma InvDb(cfg: Config, w: World)
    requires Inv(cfg, w)
    ensures DbOk(cfg, w.db, w.past) && cfg.maxConfirmations >= 1
  {
  }

  // ---------------------------------------------- what every table write keeps

  lemma KnownStays(txs: map<TxId, Tx>, txs': map<TxId, Tx>, actor: TxId, e: Entry)
    requires Frame(txs, txs', actor) && Known(txs, e) && e.hash != ""
    ensures Known(txs', e)
  {
    var i :| i in txs && Entry(txs[i].hash, txs[i].direction, txs[i].address) == e;
    assert RowStep(txs[i], txs'[i]);
  }

  lemma RecordedStays(txs: map<TxId, Tx>, txs': map<TxId, Tx>, actor: TxId, b: Broadcast)
    requires Frame(txs, txs', actor) && Recorded(txs, b) && b.hash != ""
    ensures Recorded(txs', b)
  {
    assert RowStep(txs[b.id], txs'[b.id]);
  }

  /** A write by `actor`, which must be past the gate and, once it has a hash, broadcast. */
  lemma FrameKeepsSent(w: World, w': World, actor: TxId)
    requires SentOk(w) && Frame(w.db.txs, w'.db.txs, actor)
    requires w'.sent == w.sent && w'.past.lost == w.past.lost && w'.past.delayed == w.past.delayed
    requires Settled(w') ==> Settled(w) || (|w.sent| > 0 ==> Recorded(w'.db.txs, w.sent[|w.sent| - 1]))
    requires actor in w'.db.txs && w'.db.txs[actor].direction.Outgoing? && w'.db.txs[actor].hash != "" ==>
               InSent(w.sent, actor)
    requires actor in w'.db.txs && NeverSent(w'.db.txs[actor]) ==> !InSent(w.sent, actor)
    requires Settled(w) || w'.db.txs.Keys <= w.db.txs.Keys + {actor}
    ensures SentOk(w')
  {
    forall k | 0 <= k < |w'.sent| && (k < |w'.sent| - 1 || Settled(w'))
      ensures Recorded(w'.db.txs, w'.sent[k])
    {
      if k < |w.sent| - 1 || Settled(w) {
        RecordedStays(w.db.txs, w'.db.txs, actor, w.sent[k]);
      }
    }
    forall i | i in w'.db.txs && w'.db.txs[i].direction.Outgoing? && w'.db.txs[i].hash != ""
      ensures InSent(w'.sent, i)
    {
      if i != actor {
        assert RowStep(w.db.txs[i], w'.db.txs[i]);
      }
    }
    forall i | i in w'.db.txs && NeverSent(w'.db.txs[i]) && i != actor
      ensures !InSent(w'.sent, i)
    {
      if i in w.db.txs {
        assert RowStep(w.db.txs[i], w'.db.txs[i]);
      } else {
        NotSentYet(w, i);
      }
    }
  }

  lemma FrameKeepsHold(cfg: Config, w: World, w': World, actor: TxId)
    requires HoldOk(cfg, w) && Frame(w.db.txs, w'.db.txs, actor)
    requires w'.sent == w.sent && w.confirmed <= w'.confirmed
    requires actor in w'.db.txs && Released(w'.db.txs[actor]) ==>
               Gate(cfg, w'.confirmed, actor, w'.db.txs[actor].amount, w'.db.txs[actor].cold)
    ensures HoldOk(cfg, w')
  {
    forall i | i in w'.db.txs && Released(w'.db.txs[i])
      ensures Gate(cfg, w'.confirmed, i, w'.db.txs[i].amount, w'.db.txs[i].cold)
    {
      if i != actor {
        assert RowStep(w.db.txs[i], w'.db.txs[i]);
      }
    }
  }

  lemma FrameKeepsChain(w: World, w': World, actor: TxId)
    requires ChainOk(w) && Frame(w.db.txs, w'.db.txs, actor)
    requires w'.chain == w.chain && w'.db.lastBlock == w.db.lastBlock
    ensures ChainOk(w')
  {
    forall i, o | 0 <= i < |w'.chain| && o in w'.chain[i].outputs && Covered(w'.chain, w'.db.lastBlock, i)
      ensures Known(w'.db.txs, o.entry)
    {
      assert BlockOk(w.chain[i]);
      KnownStays(w.db.txs, w'.db.txs, actor, o.entry);
    }
  }

  /** Every row is still there, a hash it had is unchanged, and a cancelled row is untouched. */
  ghost predicate Grows(txs: map<TxId, Tx>, txs': map<TxId, Tx>) {
    forall i :: i in txs ==> i in txs' && RowStep(txs[i], txs'[i])
  }

  lemma FrameGrows(txs: map<TxId, Tx>, txs': map<TxId, Tx>, actor: TxId)
    requires Frame(txs, txs', actor)
    ensures Grows(txs, txs')
  {
  }

  lemma GrowsSame(txs: map<TxId, Tx>)
    ensures Grows(txs, txs)
  {
  }

  lemma FrameSame(txs: map<TxId, Tx>, actor: TxId)
    ensures Frame(txs, txs, actor)
  {
  }

  /** When nothing is in flight, a withdrawal with no hash has never been broadcast. */
  lemma NotSentYet(w: World, id: TxId)
    requires SentOk(w) && Settled(w)
    requires id in w.db.txs ==> w.db.txs[id].hash == ""
    ensures !InSent(w.sent, id)
    ensures id !in w.past.lost && id !in w.past.delayed
  {
    assert forall k :: 0 <= k < |w.sent| ==> Recorded(w.db.txs, w.sent[k]);
    assert id in w.past.lost + w.past.delayed ==> InSent(w.sent, id);
  }
}
