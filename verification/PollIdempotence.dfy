/** Processing a consistent answer of the node a second time changes nothing. */
module PollIdempotence {
  import opened Types
  import opened Ledger
  import opened LedgerInvariant
  import opened LedgerSteps
  import opened WalletMachine
  import opened WalletInvariant
  import opened WalletSteps

  /** Entries for the same transaction, direction and address agree on the count and the block. */
  predicate Agree(m: NodeTx, n: NodeTx) {
    EntryOf(m) == EntryOf(n) ==> m.confirmations == n.confirmations && m.blockHash == n.blockHash
  }

  ghost predicate Consistent(entries: seq<NodeTx>) {
    forall m, n :: 0 <= m < |entries| && 0 <= n < |entries| ==> Agree(entries[m], entries[n])
  }

  /** The row of this entry already says everything the entry says. */
  ghost predicate Absorbed(cfg: Config, txs: map<TxId, Tx>, n: NodeTx) {
    exists i :: i in txs && SameKey(txs[i], FromNode(n)) && Observed(cfg, txs[i], FromNode(n)) == txs[i]
  }

  lemma ObservedTwice(cfg: Config, row: Tx, t: Tx)
    ensures Observed(cfg, Observed(cfg, row, t), t) == Observed(cfg, row, t)
  {
  }

  lemma ObservedAgrees(cfg: Config, row: Tx, m: NodeTx, n: NodeTx)
    requires EntryOf(m) == EntryOf(n) && Agree(m, n)
    ensures Observed(cfg, row, FromNode(m)) == Observed(cfg, row, FromNode(n))
  {
  }

  lemma NothingToReport(cfg: Config, row: Tx, t: Tx)
    requires Observed(cfg, row, t) == row
    ensures ObservedReports(cfg, row, t) == []
  {
  }

  lemma AbsorbedShape(cfg: Config, db: Db, t: Tx, newId: TxId, i: TxId)
    requires UniqueKeys(db.txs) && i in db.txs && db.txs[i].id == i != NIL_ID && t.id == NIL_ID && t.hash != ""
    requires SameKey(db.txs[i], t) && Observed(cfg, db.txs[i], t) == db.txs[i]
    ensures UpdateTxInfo(cfg, db, t, newId).Stored? && UpdateTxInfo(cfg, db, t, newId).db == db
  {
    ObserveKnownShape(cfg, db, t, newId, i);
    NothingToReport(cfg, db.txs[i], t);
    hide UpdateTxInfo, Observed, ObservedReports;
    assert db.events + [] == db.events;
    assert db.txs[i := db.txs[i]] == db.txs;
  }

  lemma AbsorbedIsNoop(cfg: Config, s: Scan, n: NodeTx, newId: TxId)
    requires s.Scan? && DbOk(cfg, s.db, s.past) && n.hash != "" && Absorbed(cfg, s.db.txs, n)
    ensures TakeIn(cfg, s, FromNode(n), newId).Scan?
    ensures TakeIn(cfg, s, FromNode(n), newId).db == s.db
  {
    hide UpdateTxInfo, Observed;
    var i :| i in s.db.txs && SameKey(s.db.txs[i], FromNode(n)) && Observed(cfg, s.db.txs[i], FromNode(n)) == s.db.txs[i];
    assert RowOk(cfg, i, s.db.txs[i]);
    AbsorbedShape(cfg, s.db, FromNode(n), newId, i);
  }

  /** Taking in an entry absorbs it and keeps what was absorbed before. */
  lemma TakeInAbsorbs(cfg: Config, s: Scan, n: NodeTx, newId: TxId)
    requires s.Scan? && DbOk(cfg, s.db, s.past)
    requires n.hash != "" && (n.direction.Outgoing? ==> Known(s.db.txs, EntryOf(n)))
    requires newId != NIL_ID && newId !in s.db.txs && newId !in s.past.lost
    ensures var s' := TakeIn(cfg, s, FromNode(n), newId);
            && s'.Scan?
            && Absorbed(cfg, s'.db.txs, n)
            && forall m :: Absorbed(cfg, s.db.txs, m) && Agree(m, n) ==> Absorbed(cfg, s'.db.txs, m)
  {
    var t := FromNode(n);
    if i :| i in s.db.txs && SameKey(s.db.txs[i], t) {
      TakeInKnown(cfg, s, t, newId, i);
      hide TakeIn, DbOk;
      RewriteAbsorbs(cfg, s.db.txs, i, s.db.txs[i], n);
    } else {
      assert n.direction.Incoming?;
      TakeInNew(cfg, s, n, newId);
      hide TakeIn, DbOk;
      RewriteAbsorbs(cfg, s.db.txs, newId, t.(id := newId), n);
    }
  }

  lemma RewriteAbsorbs(cfg: Config, txs: map<TxId, Tx>, i: TxId, row: Tx, n: NodeTx)
    requires SameKey(row, FromNode(n)) && (i in txs ==> txs[i] == row)
    ensures var txs' := txs[i := Observed(cfg, row, FromNode(n))];
            && Absorbed(cfg, txs', n)
            && forall m :: Absorbed(cfg, txs, m) && Agree(m, n) ==> Absorbed(cfg, txs', m)
  {
    var t := FromNode(n);
    var txs' := txs[i := Observed(cfg, row, t)];
    ObservedTwice(cfg, row, t);
    assert SameKey(txs'[i], t);
    forall m | Absorbed(cfg, txs, m) && Agree(m, n) ensures Absorbed(cfg, txs', m) {
      var j :| j in txs && SameKey(txs[j], FromNode(m)) && Observed(cfg, txs[j], FromNode(m)) == txs[j];
      if j == i {
        ObservedAgrees(cfg, row, m, n);
      }
      assert txs'[j] == txs[j];
    }
  }

  ghost predicate AllAbsorbed(cfg: Config, s: Scan, entries: seq<NodeTx>) {
    s.Scan? && forall n :: 0 <= n < |entries| ==> Absorbed(cfg, s.db.txs, entries[n])
  }

  lemma {:induction false} ScanAbsorbs(cfg: Config, s: Scan, entries: seq<NodeTx>, ids: seq<TxId>)
    requires s.Scan? && DbOk(cfg, s.db, s.past) && EntriesOk(s, entries, ids) && Consistent(entries)
    ensures AllAbsorbed(cfg, ScanNew(cfg, s, entries, ids), entries)
  {
    hide DbOk, TakeIn, Absorbed, Agree, Known;
    if entries != [] {
      var n := |entries| - 1;
      var p := ScanNew(cfg, s, entries[..n], ids[..n]);
      EntriesPrefix(s, entries, ids, n);
      ScanAbsorbs(cfg, s, entries[..n], ids[..n]);
      ScanNewKeeps(cfg, s, entries[..n], ids[..n]);
      ScanNewReady(cfg, s, p, entries, ids, n);
      TakeInAbsorbs(cfg, p, entries[n], ids[n]);
      forall m | 0 <= m < n ensures Absorbed(cfg, ScanNew(cfg, s, entries, ids).db.txs, entries[m]) {
        assert entries[..n][m] == entries[m];
        assert Agree(entries[m], entries[n]);
      }
    }
  }

  lemma {:induction false} AbsorbedScanIsNoop(cfg: Config, s: Scan, entries: seq<NodeTx>, ids: seq<TxId>)
    requires s.Scan? && DbOk(cfg, s.db, s.past) && AllAbsorbed(cfg, s, entries) && |ids| == |entries|
    requires forall n :: 0 <= n < |entries| ==> entries[n].hash != ""
    ensures ScanNew(cfg, s, entries, ids).Scan? && ScanNew(cfg, s, entries, ids).db == s.db
    ensures DbOk(cfg, s.db, ScanNew(cfg, s, entries, ids).past)
  {
    hide DbOk, TakeIn, Absorbed;
    if entries != [] {
      var n := |entries| - 1;
      var p := ScanNew(cfg, s, entries[..n], ids[..n]);
      assert forall m :: 0 <= m < n ==> entries[..n][m] == entries[m];
      AbsorbedScanIsNoop(cfg, s, entries[..n], ids[..n]);
      AbsorbedIsNoop(cfg, p, entries[n], ids[n]);
      AbsorbedStaysOk(cfg, p, entries[n], ids[n]);
    }
  }

  lemma AbsorbedStaysOk(cfg: Config, s: Scan, n: NodeTx, newId: TxId)
    requires s.Scan? && DbOk(cfg, s.db, s.past) && n.hash != "" && Absorbed(cfg, s.db.txs, n)
    ensures TakeIn(cfg, s, FromNode(n), newId).Scan?
    ensures DbOk(cfg, TakeIn(cfg, s, FromNode(n), newId).db, TakeIn(cfg, s, FromNode(n), newId).past)
  {
    var i :| i in s.db.txs && SameKey(s.db.txs[i], FromNode(n)) && Observed(cfg, s.db.txs[i], FromNode(n)) == s.db.txs[i];
    TakeInKnown(cfg, s, FromNode(n), newId, i);
  }

  /** The table and the event log after a second pass over the same answer, with
      whatever fresh ids the storage would hand out, are those after the first. */
  lemma SecondPollChangesNothing(cfg: Config, w: World, entries: seq<NodeTx>, lastBlock: string,
                                 ids: seq<TxId>, ids': seq<TxId>)
    requires Inv(cfg, w) && w.proc.Idle? && ListingOk(w, entries, lastBlock, ids) && Consistent(entries)
    requires |ids'| == |entries|
    ensures var w1 := Next(cfg, w, PollNew(entries, lastBlock, ids, Committed));
            var w2 := Next(cfg, w1, PollNew(entries, lastBlock, ids', Committed));
            w2.db == w1.db && !w2.panicked
  {
    hide DbOk, ScanNew, Absorbed, Known, Frame, ListingOk, SentOk, HoldOk, ChainOk, Consistent;
    var s := Scan(w.db, w.past);
    ListingEntries(cfg, w, entries, lastBlock, ids);
    ScanAbsorbs(cfg, s, entries, ids);
    ScanNewKeeps(cfg, s, entries, ids);
    var s1 := ScanNew(cfg, s, entries, ids);
    var w1 := Next(cfg, w, PollNew(entries, lastBlock, ids, Committed));
    DbOkSameTables(cfg, s1.db, w1.db, w1.past);
    AbsorbedScanIsNoop(cfg, Scan(w1.db, w1.past), entries, ids');
  }
}
