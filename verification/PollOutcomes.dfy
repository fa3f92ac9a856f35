/** What a committed poll stores, in terms of the node's answer and the old rows alone. */
module PollOutcomes {
  import opened Types
  import opened Ledger
  import opened LedgerInvariant
  import opened LedgerSteps
  import opened WalletMachine
  import opened WalletInvariant
  import opened WalletSteps
  import opened WalletCalls

  /** A row that took over a count and a block of the node: the count is stored, the
      status follows it, and a transaction that is reported at all has been reported up
      to the highest clamped count. */
  ghost predicate TookOver(cfg: Config, row: Tx, row': Tx, confirmations: int, blockHash: string) {
    && row'.confirmations == confirmations && row'.blockHash == blockHash
    && StatusIs(cfg, row'.status, confirmations)
    && (row.address != cfg.hotAddress && !row.cold ==>
          row'.reported == Max(row.reported, Min(confirmations, cfg.maxConfirmations)))
    && (row.address == cfg.hotAddress || row.cold ==> row'.reported == row.reported)
    && row'.hash == row.hash && row'.id == row.id && row'.address == row.address
    && row'.direction == row.direction && row'.amount == row.amount && row'.fee == row.fee
    && row'.feeType == row.feeType && row'.cold == row.cold
  }

  lemma ObservedTookOver(cfg: Config, row: Tx, t: Tx)
    requires !Waiting(t.status) && row.hash == t.hash
    ensures TookOver(cfg, row, Observed(cfg, row, t), t.confirmations, t.blockHash)
  {
  }

  // ----------------------------------------------------------------- the refresh

  /** The rows that still gain confirmations. */
  ghost predicate StillGaining(cfg: Config, txs: map<TxId, Tx>, i: TxId) {
    i in txs && txs[i].hash != "" && txs[i].confirmations < cfg.maxConfirmations
  }

  /** After a refresh of exactly these rows, each has taken over the node's answer for its
      hash, no other row has changed, and the history grew by their counts. */
  ghost predicate RefreshDone(
    cfg: Config, db: Db, past: Past, db': Db, past': Past, order: seq<TxId>, infos: map<string, Info>)
  {
    && db'.txs.Keys == db.txs.Keys
    && |past'.polled| == |past.polled| + |order| && past'.polled[..|past.polled|] == past.polled
    && (forall n :: 0 <= n < |order| && order[n] in db.txs && db.txs[order[n]].hash in infos ==>
          && TookOver(cfg, db.txs[order[n]], db'.txs[order[n]],
                      infos[db.txs[order[n]].hash].confirmations, infos[db.txs[order[n]].hash].blockHash)
          && past'.polled[|past.polled| + n] == Poll(order[n], infos[db.txs[order[n]].hash].confirmations))
    && (forall i :: i in db.txs && i !in order ==> db'.txs[i] == db.txs[i])
    && db'.lastBlock == db.lastBlock && db'.lock == db.lock && db'.coldNeed == db.coldNeed
  }

  lemma {:induction false} ScanKnownDone(cfg: Config, s: Scan, order: seq<TxId>, infos: map<string, Info>)
    requires s.Scan? && DbOk(cfg, s.db, s.past)
    requires forall k :: 0 <= k < |order| ==>
               order[k] in s.db.txs && s.db.txs[order[k]].hash != "" && s.db.txs[order[k]].hash in infos
    requires forall j, k :: 0 <= j < k < |order| ==> order[j] != order[k]
    ensures var p := ScanKnown(cfg, s, order, infos);
      p.Scan? && RefreshDone(cfg, s.db, s.past, p.db, p.past, order, infos)
  {
    hide DbOk, Frame, TakeIn, TookOver, Observed, RefreshDone, ScanOk, OneMatch, UpdateTxInfo, Refreshed;
    if order == [] {
      NothingRefreshed(cfg, s.db, s.past, infos);
    } else {
      var n := |order| - 1;
      var init, i := order[..n], order[n];
      ScanKnownDone(cfg, s, init, infos);
      ScanKnownKeeps(cfg, s, init, infos);
      ScanKnownKeeps(cfg, s, order, infos);
      ScanKnownAt(cfg, s, order, infos, n);
      var p := ScanKnown(cfg, s, init, infos);
      ScanUnique(cfg, s, ScanKnown(cfg, s, order, infos));
      assert order[..n + 1] == order;
      RefreshedOne(cfg, s, p, i, infos);
      RefreshedMore(cfg, s, p, ScanKnown(cfg, s, order, infos), order, infos);
    }
  }

  lemma NothingRefreshed(cfg: Config, db: Db, past: Past, infos: map<string, Info>)
    ensures RefreshDone(cfg, db, past, db, past, [], infos)
  {
  }

  /** One more row: the record handed on carries the node's answer. */
  lemma RefreshedOne(cfg: Config, s: Scan, p: Scan, i: TxId, infos: map<string, Info>)
    requires s.Scan? && ScanOk(cfg, s, p) && i in s.db.txs && i in p.db.txs && p.db.txs[i] == s.db.txs[i]
    requires s.db.txs[i].hash != "" && s.db.txs[i].hash in infos
    ensures var p', row, info := TakeIn(cfg, p, Refreshed(s.db.txs[i], infos), NIL_ID), s.db.txs[i], infos[s.db.txs[i].hash];
      && p'.Scan? && i in p'.db.txs && p'.db.txs == p.db.txs[i := p'.db.txs[i]]
      && TookOver(cfg, row, p'.db.txs[i], info.confirmations, info.blockHash)
      && p'.past.polled == p.past.polled + [Poll(i, info.confirmations)]
      && p'.db.(txs := p.db.txs, events := p.db.events) == p.db
  {
    var row := s.db.txs[i];
    BroadcastRow(cfg, s, p, i);
    RefreshedKey(cfg, s, p, i, infos);
    var t := Refreshed(row, infos);
    assert t.confirmations == infos[row.hash].confirmations && t.blockHash == infos[row.hash].blockHash;
    ScanDb(cfg, s, p);
    hide ScanOk, DbOk, Frame, UpdateTxInfo, Observed, Refreshed;
    ObserveKnown(cfg, p.db, p.past, t, NIL_ID, i);
    ObservedTookOver(cfg, row, t);
    hide TookOver;
  }

  lemma ScanDb(cfg: Config, s: Scan, p: Scan)
    requires ScanOk(cfg, s, p)
    ensures p.Scan? && DbOk(cfg, p.db, p.past)
  {
  }

  lemma RefreshedMore(cfg: Config, s: Scan, p: Scan, p': Scan, order: seq<TxId>, infos: map<string, Info>)
    requires s.Scan? && p.Scan? && p'.Scan? && order != []
    requires var init := order[..|order| - 1]; RefreshDone(cfg, s.db, s.past, p.db, p.past, init, infos)
    requires var i := order[|order| - 1];
      && i in s.db.txs && i !in order[..|order| - 1] && s.db.txs[i].hash in infos
      && i in p'.db.txs && p'.db.txs == p.db.txs[i := p'.db.txs[i]]
      && TookOver(cfg, s.db.txs[i], p'.db.txs[i], infos[s.db.txs[i].hash].confirmations, infos[s.db.txs[i].hash].blockHash)
      && p'.past.polled == p.past.polled + [Poll(i, infos[s.db.txs[i].hash].confirmations)]
      && p'.db.(txs := p.db.txs, events := p.db.events) == p.db
    ensures RefreshDone(cfg, s.db, s.past, p'.db, p'.past, order, infos)
  {
    hide TookOver;
    var n := |order| - 1;
    assert order == order[..n] + [order[n]];
    forall k | 0 <= k < n
      ensures order[k] == order[..n][k] && order[k] != order[n]
    {
      assert order[..n][k] in order[..n];
    }
  }

  /** checkForExistingTransactionUpdates over one step: the rows asked about are exactly
      those with a hash and too few confirmations, and all of them take over the answer. */
  lemma RefreshOutcome(cfg: Config, w: World, order: seq<TxId>, infos: map<string, Info>, out: Commit)
    requires Inv(cfg, w) && w.proc.Idle? && Legal(cfg, w, PollKnown(order, infos, out))
    ensures forall i :: i in order <==> StillGaining(cfg, w.db.txs, i)
    ensures var w' := Next(cfg, w, PollKnown(order, infos, out));
      if out == Dropped then w' == w
      else w'.proc == w.proc && w'.sent == w.sent && RefreshDone(cfg, w.db, w.past, w'.db, w'.past, order, infos)
  {
    assert forall i :: i in order <==> i in LessConfirmed(cfg, w.db.txs);
    PollKnownStart(cfg, w, order, infos);
    var s := Scan(w.db, w.past);
    hide Inv, Next, RefreshOk, DbOk, ScanKnown, RefreshDone;
    ScanKnownDone(cfg, s, order, infos);
    PollKnownIs(cfg, w, order, infos, out, ScanKnown(cfg, s, order, infos));
    SameLastBlock(cfg, w.db, w.past, ScanKnown(cfg, s, order, infos), order, infos);
  }

  lemma SameLastBlock(cfg: Config, db: Db, past: Past, p: Scan, order: seq<TxId>, infos: map<string, Info>)
    requires p.Scan? && RefreshDone(cfg, db, past, p.db, p.past, order, infos)
    ensures p.db.lastBlock == db.lastBlock
  {
  }

  // ----------------------------------------------------------------- the listing

  predicate KeyIs(r: Tx, e: NodeTx) {
    r.hash == e.hash && r.direction == e.direction && r.address == e.address
  }

  /** The row says what the entry says. */
  predicate Shows(cfg: Config, r: Tx, e: NodeTx) {
    r.confirmations == e.confirmations && r.blockHash == e.blockHash && StatusIs(cfg, r.status, e.confirmations)
  }

  /** A row made for a listed entry. */
  predicate MadeFor(r: Tx, e: NodeTx) {
    KeyIs(r, e) && e.direction.Incoming? && !r.cold && r.fee == 0 && r.feeType.InvalidFee?
  }

  /** No later entry has the same hash, direction and address. */
  predicate LastFor(entries: seq<NodeTx>, n: nat)
    requires n < |entries|
  {
    forall m :: n < m < |entries| ==>
      entries[m].hash != entries[n].hash || entries[m].direction != entries[n].direction
      || entries[m].address != entries[n].address
  }

  /** The count of every entry went to the row with its key, in order, and the row shows
      the last entry with its key. */
  ghost predicate CountsTaken(cfg: Config, txs: map<TxId, Tx>, polled: seq<Poll>, entries: seq<NodeTx>) {
    && |polled| >= |entries|
    && forall n: nat, i :: n < |entries| && i in txs && KeyIs(txs[i], entries[n]) ==>
         && polled[|polled| - |entries| + n] == Poll(i, entries[n].confirmations)
         && (LastFor(entries, n) ==> Shows(cfg, txs[i], entries[n]))
  }

  ghost predicate AllHaveRows(txs: map<TxId, Tx>, entries: seq<NodeTx>) {
    forall n :: 0 <= n < |entries| ==> exists i :: i in txs && KeyIs(txs[i], entries[n])
  }

  ghost predicate Unlisted(r: Tx, entries: seq<NodeTx>) {
    forall n :: 0 <= n < |entries| ==> !KeyIs(r, entries[n])
  }

  ghost predicate MadeForSome(r: Tx, entries: seq<NodeTx>) {
    exists n :: 0 <= n < |entries| && MadeFor(r, entries[n])
  }

  /** Every entry has its row and its count in the history, unlisted rows have not changed
      and every new row was made for an incoming entry. */
  ghost predicate ListingDone(cfg: Config, db: Db, past: Past, db': Db, past': Past, entries: seq<NodeTx>) {
    && |past'.polled| == |past.polled| + |entries| && past'.polled[..|past.polled|] == past.polled
    && AllHaveRows(db'.txs, entries)
    && CountsTaken(cfg, db'.txs, past'.polled, entries)
    && (forall i :: i in db.txs && Unlisted(db.txs[i], entries) ==> i in db'.txs && db'.txs[i] == db.txs[i])
    && (forall i :: i in db'.txs && i !in db.txs ==> MadeForSome(db'.txs[i], entries))
    && db'.(txs := db.txs, events := db.events) == db
  }

  /** Row i of the table now shows entry e and keeps its key; no other row has it. */
  ghost predicate RowTaken(cfg: Config, txs: map<TxId, Tx>, txs': map<TxId, Tx>, e: NodeTx, i: TxId) {
    && i in txs' && txs' == txs[i := txs'[i]]
    && KeyIs(txs'[i], e) && Shows(cfg, txs'[i], e)
    && (i in txs ==>
          && KeyIs(txs[i], e)
          && txs[i].cold == txs'[i].cold && txs[i].fee == txs'[i].fee && txs[i].feeType == txs'[i].feeType)
    && (i !in txs ==> MadeFor(txs'[i], e) && forall j :: j in txs ==> !KeyIs(txs[j], e))
  }

  /** Taking in entry e. */
  ghost predicate EntryTaken(cfg: Config, p: Scan, p': Scan, e: NodeTx, i: TxId) {
    && p.Scan? && p'.Scan?
    && RowTaken(cfg, p.db.txs, p'.db.txs, e, i)
    && p'.past.polled == p.past.polled + [Poll(i, e.confirmations)]
    && p'.db.(txs := p.db.txs, events := p.db.events) == p.db
  }

  lemma EntryIsTaken(cfg: Config, p: Scan, e: NodeTx, newId: TxId) returns (i: TxId)
    requires p.Scan? && DbOk(cfg, p.db, p.past)
    requires e.hash != "" && (e.direction.Outgoing? ==> Known(p.db.txs, EntryOf(e)))
    requires newId != NIL_ID && newId !in p.db.txs && newId !in p.past.lost
    ensures EntryTaken(cfg, p, TakeIn(cfg, p, FromNode(e), newId), e, i)
  {
    hide DbOk, TakeIn, EntryTaken, FromNode, Known;
    if k :| k in p.db.txs && SameKey(p.db.txs[k], FromNode(e)) {
      i := k;
      KnownTaken(cfg, p, e, newId, k);
    } else {
      i := newId;
      NotKnownKey(p.db.txs, e);
      NewTaken(cfg, p, e, newId);
    }
  }

  lemma FromNodeIs(e: NodeTx)
    ensures var t := FromNode(e);
      && t.id == NIL_ID && t.hash == e.hash && t.direction == e.direction && t.address == e.address
      && t.confirmations == e.confirmations && t.blockHash == e.blockHash && t.amount == e.amount
      && t.status.New? && t.reported == -1 && !t.cold && t.fee == 0 && t.feeType.InvalidFee?
  {
  }

  lemma KnownTaken(cfg: Config, p: Scan, e: NodeTx, newId: TxId, k: TxId)
    requires p.Scan? && DbOk(cfg, p.db, p.past) && e.hash != ""
    requires k in p.db.txs && SameKey(p.db.txs[k], FromNode(e))
    ensures EntryTaken(cfg, p, TakeIn(cfg, p, FromNode(e), newId), e, k)
  {
    hide DbOk, UpdateTxInfo, Observed, FromNode, StatusIs;
    FromNodeIs(e);
    ObserveKnown(cfg, p.db, p.past, FromNode(e), newId, k);
    ObservedTookOver(cfg, p.db.txs[k], FromNode(e));
  }

  lemma NewTaken(cfg: Config, p: Scan, e: NodeTx, newId: TxId)
    requires p.Scan? && DbOk(cfg, p.db, p.past) && e.hash != "" && e.direction.Incoming?
    requires newId != NIL_ID && newId !in p.db.txs && newId !in p.past.lost
    requires forall k :: k in p.db.txs ==> !SameKey(p.db.txs[k], FromNode(e)) && !KeyIs(p.db.txs[k], e)
    ensures EntryTaken(cfg, p, TakeIn(cfg, p, FromNode(e), newId), e, newId)
  {
    hide DbOk, UpdateTxInfo, Observed, FromNode, StatusIs;
    FromNodeIs(e);
    ObserveNew(cfg, p.db, p.past, FromNode(e), newId);
    ObservedTookOver(cfg, FromNode(e).(id := newId), FromNode(e));
  }

  lemma NotKnownKey(txs: map<TxId, Tx>, e: NodeTx)
    requires forall k :: k in txs ==> !SameKey(txs[k], FromNode(e))
    ensures !Known(txs, EntryOf(e)) && forall k :: k in txs ==> !SameKey(txs[k], FromNode(e)) && !KeyIs(txs[k], e)
  {
    forall k | k in txs
      ensures Entry(txs[k].hash, txs[k].direction, txs[k].address) != EntryOf(e) && !KeyIs(txs[k], e)
    {
      assert !SameKey(txs[k], FromNode(e));
    }
  }

  lemma {:induction false} ScanNewDone(cfg: Config, s: Scan, entries: seq<NodeTx>, ids: seq<TxId>)
    requires s.Scan? && DbOk(cfg, s.db, s.past) && EntriesOk(s, entries, ids) && |ids| == |entries|
    ensures var p := ScanNew(cfg, s, entries, ids); p.Scan? && ListingDone(cfg, s.db, s.past, p.db, p.past, entries)
  {
    hide DbOk, Frame, TakeIn, ListingDone, EntryTaken, ScanOk, TakenIn, EntriesOk, Known, FromNode, UniqueKeys;
    ScanNewKeeps(cfg, s, entries, ids);
    ScanDb(cfg, s, ScanNew(cfg, s, entries, ids));
    if entries == [] {
      NothingListed(cfg, s.db, s.past);
    } else {
      var n := |entries| - 1;
      EntriesPrefix(s, entries, ids, n);
      ScanNewDone(cfg, s, entries[..n], ids[..n]);
      ScanNewKeeps(cfg, s, entries[..n], ids[..n]);
      var p := ScanNew(cfg, s, entries[..n], ids[..n]);
      ScanDb(cfg, s, p);
      ScanNewReady(cfg, s, p, entries, ids, n);
      EntryHash(s, entries, ids, n);
      var i := EntryIsTaken(cfg, p, entries[n], ids[n]);
      ScanUnique(cfg, s, ScanNew(cfg, s, entries, ids));
      ScanGrows(cfg, s, p);
      ListedMore(cfg, s, p, ScanNew(cfg, s, entries, ids), entries, i);
    }
  }

  lemma EntryHash(s: Scan, entries: seq<NodeTx>, ids: seq<TxId>, n: nat)
    requires EntriesOk(s, entries, ids) && n < |entries|
    ensures entries[n].hash != ""
  {
  }

  lemma ScanGrows(cfg: Config, s: Scan, p: Scan)
    requires ScanOk(cfg, s, p)
    ensures s.Scan? && p.Scan? && forall i :: i in s.db.txs ==> i in p.db.txs
  {
  }

  lemma NothingListed(cfg: Config, db: Db, past: Past)
    ensures ListingDone(cfg, db, past, db, past, [])
  {
  }

  lemma ListedMore(cfg: Config, s: Scan, p: Scan, p': Scan, entries: seq<NodeTx>, i: TxId)
    requires entries != [] && s.Scan? && EntryTaken(cfg, p, p', entries[|entries| - 1], i)
    requires ListingDone(cfg, s.db, s.past, p.db, p.past, entries[..|entries| - 1])
    requires UniqueKeys(p'.db.txs) && entries[|entries| - 1].hash != ""
    requires forall j :: j in s.db.txs ==> j in p.db.txs
    ensures ListingDone(cfg, s.db, s.past, p'.db, p'.past, entries)
  {
    hide RowTaken, AllHaveRows, CountsTaken, Unlisted, MadeForSome, UniqueKeys;
    var init, e := entries[..|entries| - 1], entries[|entries| - 1];
    assert entries == init + [e];
    RowsAfter(cfg, p.db.txs, p'.db.txs, init, e, i);
    CountsAfter(cfg, p.db.txs, p'.db.txs, p.past.polled, init, e, i);
    KeptAfter(cfg, s.db.txs, p.db.txs, p'.db.txs, init, e, i);
    MadeAfter(cfg, s.db.txs, p.db.txs, p'.db.txs, init, e, i);
  }

  lemma RowsAfter(cfg: Config, txs: map<TxId, Tx>, txs': map<TxId, Tx>, init: seq<NodeTx>, e: NodeTx, i: TxId)
    requires RowTaken(cfg, txs, txs', e, i) && AllHaveRows(txs, init)
    ensures AllHaveRows(txs', init + [e])
  {
    hide Shows, MadeFor;
    forall n | 0 <= n < |init + [e]|
      ensures exists j :: j in txs' && KeyIs(txs'[j], (init + [e])[n])
    {
      if n < |init| {
        var j :| j in txs && KeyIs(txs[j], init[n]);
        assert j in txs' && KeyIs(txs'[j], init[n]);
      } else {
        assert KeyIs(txs'[i], e);
      }
    }
  }

  lemma CountsAfter(cfg: Config, txs: map<TxId, Tx>, txs': map<TxId, Tx>, polled: seq<Poll>,
                    init: seq<NodeTx>, e: NodeTx, i: TxId)
    requires RowTaken(cfg, txs, txs', e, i) && AllHaveRows(txs, init) && CountsTaken(cfg, txs, polled, init)
    requires UniqueKeys(txs') && e.hash != ""
    ensures CountsTaken(cfg, txs', polled + [Poll(i, e.confirmations)], init + [e])
  {
    hide Shows, MadeFor;
    var entries, polled' := init + [e], polled + [Poll(i, e.confirmations)];
    forall n: nat, j | n < |entries| && j in txs' && KeyIs(txs'[j], entries[n])
      ensures polled'[|polled'| - |entries| + n] == Poll(j, entries[n].confirmations)
      ensures LastFor(entries, n) ==> Shows(cfg, txs'[j], entries[n])
    {
      if n < |init| {
        CountBefore(cfg, txs, txs', init, e, i, n, j);
        assert polled'[|polled'| - |entries| + n] == polled[|polled| - |init| + n];
      } else {
        assert SameKey(txs'[j], txs'[i]);
      }
    }
  }

  /** A row that matches an earlier entry was there before, and changed only if e has its key. */
  lemma CountBefore(cfg: Config, txs: map<TxId, Tx>, txs': map<TxId, Tx>, init: seq<NodeTx>, e: NodeTx, i: TxId,
                    n: nat, j: TxId)
    requires RowTaken(cfg, txs, txs', e, i) && AllHaveRows(txs, init)
    requires n < |init| && j in txs' && KeyIs(txs'[j], init[n])
    ensures j in txs && KeyIs(txs[j], init[n])
    ensures LastFor(init + [e], n) ==> LastFor(init, n) && txs'[j] == txs[j]
  {
    hide Shows, MadeFor;
    var entries := init + [e];
    assert forall m :: 0 <= m < |init| ==> entries[m] == init[m];
    assert entries[|init|] == e;
    assert exists k :: k in txs && KeyIs(txs[k], init[n]);
  }

  /** Unlisted rows stay. */
  lemma KeptAfter(cfg: Config, txs0: map<TxId, Tx>, txs: map<TxId, Tx>, txs': map<TxId, Tx>,
                  init: seq<NodeTx>, e: NodeTx, i: TxId)
    requires RowTaken(cfg, txs, txs', e, i)
    requires forall j :: j in txs0 && Unlisted(txs0[j], init) ==> j in txs && txs[j] == txs0[j]
    ensures forall j :: j in txs0 && Unlisted(txs0[j], init + [e]) ==> j in txs' && txs'[j] == txs0[j]
  {
    hide Shows, MadeFor;
    forall j | j in txs0 && Unlisted(txs0[j], init + [e])
      ensures j in txs' && txs'[j] == txs0[j]
    {
      assert forall m :: 0 <= m < |init| ==> (init + [e])[m] == init[m];
      assert (init + [e])[|init|] == e;
      assert Unlisted(txs0[j], init) && !KeyIs(txs0[j], e);
    }
  }

  /** New rows were made for an entry. */
  lemma MadeAfter(cfg: Config, txs0: map<TxId, Tx>, txs: map<TxId, Tx>, txs': map<TxId, Tx>,
                  init: seq<NodeTx>, e: NodeTx, i: TxId)
    requires RowTaken(cfg, txs, txs', e, i)
    requires forall j :: j in txs && j !in txs0 ==> MadeForSome(txs[j], init)
    ensures forall j :: j in txs' && j !in txs0 ==> MadeForSome(txs'[j], init + [e])
  {
    hide Shows;
    forall j | j in txs' && j !in txs0
      ensures MadeForSome(txs'[j], init + [e])
    {
      if j in txs {
        var m :| 0 <= m < |init| && MadeFor(txs[j], init[m]);
        assert (init + [e])[m] == init[m];
        assert MadeFor(txs'[j], (init + [e])[m]);
      } else {
        assert MadeFor(txs'[j], (init + [e])[|init|]);
      }
    }
  }

  /** checkForNewTransactions over one step: every entry's count is taken over by the row
      with its key, and the last seen block is the node's. */
  lemma ListingOutcome(
    cfg: Config, w: World, entries: seq<NodeTx>, lastBlock: string, ids: seq<TxId>, out: Commit)
    requires Inv(cfg, w) && w.proc.Idle? && Legal(cfg, w, PollNew(entries, lastBlock, ids, out))
    ensures var w' := Next(cfg, w, PollNew(entries, lastBlock, ids, out));
      if out == Dropped then w' == w
      else
        && w'.proc == w.proc && w'.sent == w.sent && w'.db.lastBlock == lastBlock
        && w'.listed == w.listed + entries
        && ListingDone(cfg, w.db, w.past, w'.db.(lastBlock := w.db.lastBlock), w'.past, entries)
  {
    PollNewStart(cfg, w, entries, lastBlock, ids);
    EntriesLength(Scan(w.db, w.past), entries, ids);
    var s := Scan(w.db, w.past);
    hide Inv, Next, ListingOk, DbOk, ScanNew, EntriesOk;
    ScanNewDone(cfg, s, entries, ids);
    PollNewIs(cfg, w, entries, lastBlock, ids, out, ScanNew(cfg, s, entries, ids));
    var p := ScanNew(cfg, s, entries, ids);
    ListedBlock(cfg, w.db, w.past, p.db, p.past, entries);
    hide ListingDone;
    assert p.db.(lastBlock := lastBlock).(lastBlock := w.db.lastBlock) == p.db;
  }

  lemma EntriesLength(s: Scan, entries: seq<NodeTx>, ids: seq<TxId>)
    requires EntriesOk(s, entries, ids)
    ensures |ids| == |entries|
  {
  }

  lemma ListedBlock(cfg: Config, db: Db, past: Past, db': Db, past': Past, entries: seq<NodeTx>)
    requires ListingDone(cfg, db, past, db', past', entries)
    ensures db'.lastBlock == db.lastBlock
  {
  }
}
