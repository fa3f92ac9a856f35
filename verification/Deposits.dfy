/** Which amount a deposit is recorded with, over whole runs. */
module Deposits {
  import opened Types
  import opened Ledger
  import opened LedgerInvariant
  import opened LedgerSteps
  import opened WalletMachine
  import opened WalletInvariant
  import opened WalletSteps
  import opened WalletTheorems
  import opened WithdrawalFrame
  import opened WalletCalls

  // ------------------------------------------------------------ listed amounts

  /** The output the node listed first with this hash, direction and address. */
  function FirstListed(listed: seq<NodeTx>, e: Entry): Option<Output> {
    if listed == [] then None
    else
      var n := |listed| - 1;
      var before := FirstListed(listed[..n], e);
      if before.Some? || EntryOf(listed[n]) != e then before else Some(OutputOf(listed[n]))
  }

  lemma {:induction false} FirstListedAppend(a: seq<NodeTx>, b: seq<NodeTx>, e: Entry)
    ensures FirstListed(a + b, e) == if FirstListed(a, e).Some? then FirstListed(a, e) else FirstListed(b, e)
  {
    if b == [] {
      assert a + b == a;
    } else {
      assert (a + b)[..|a + b| - 1] == a + b[..|b| - 1];
      FirstListedAppend(a, b[..|b| - 1], e);
    }
  }

  ghost predicate FirstAt(listed: seq<NodeTx>, e: Entry, n: nat) {
    && n < |listed| && EntryOf(listed[n]) == e
    && forall m :: 0 <= m < n ==> EntryOf(listed[m]) != e
  }

  lemma {:induction false} FirstListedIs(listed: seq<NodeTx>, e: Entry)
    ensures FirstListed(listed, e).None? <==> forall n :: 0 <= n < |listed| ==> EntryOf(listed[n]) != e
    ensures forall n: nat :: FirstAt(listed, e, n) ==> FirstListed(listed, e) == Some(OutputOf(listed[n]))
    ensures FirstListed(listed, e).Some? ==> exists n: nat :: FirstAt(listed, e, n)
  {
    if listed != [] {
      var init := listed[..|listed| - 1];
      FirstListedIs(init, e);
      assert forall k :: 0 <= k < |init| ==> init[k] == listed[k];
      assert forall k: nat :: k < |init| && FirstAt(init, e, k) ==> FirstAt(listed, e, k);
      if FirstListed(init, e).None? && EntryOf(listed[|init|]) == e {
        assert FirstAt(listed, e, |init|);
      }
      forall n: nat | FirstAt(listed, e, n)
        ensures FirstListed(listed, e) == Some(OutputOf(listed[n]))
      {
        if n < |init| {
          assert FirstAt(init, e, n);
        }
      }
    }
  }

  /** What the entries with this key are worth together, and what those after the first are. */
  function ListedTotal(entries: seq<NodeTx>, e: Entry): nat {
    if entries == [] then 0
    else
      var n := |entries| - 1;
      ListedTotal(entries[..n], e) + if EntryOf(entries[n]) == e then entries[n].amount else 0
  }

  /** An entry after the first one with the same hash, direction and address. */
  ghost predicate Repeats(entries: seq<NodeTx>, n: nat) {
    n < |entries| && exists m :: 0 <= m < n && EntryOf(entries[m]) == EntryOf(entries[n])
  }

  /** A repeated entry of this key that is worth something. */
  ghost predicate Unrecorded(entries: seq<NodeTx>, e: Entry, n: nat) {
    Repeats(entries, n) && EntryOf(entries[n]) == e && entries[n].amount > 0
  }

  /** No repeated entry of this key is worth anything. */
  ghost predicate RepeatsWorthless(entries: seq<NodeTx>, e: Entry) {
    forall n: nat :: !Unrecorded(entries, e, n)
  }

  lemma {:induction false} TotalIsFirstIff(entries: seq<NodeTx>, e: Entry)
    requires FirstListed(entries, e).Some?
    ensures ListedTotal(entries, e) >= FirstListed(entries, e).value.amount
    ensures ListedTotal(entries, e) == FirstListed(entries, e).value.amount <==> RepeatsWorthless(entries, e)
  {
    var init, last := entries[..|entries| - 1], |entries| - 1;
    RepeatsInit(entries, e);
    if FirstListed(init, e).Some? {
      hide RepeatsWorthless;
      TotalIsFirstIff(init, e);
    } else {
      FirstListedIs(init, e);
      NothingListed(init, e);
      hide FirstListed;
      assert RepeatsWorthless(init, e);
    }
  }

  lemma UnrecordedBefore(entries: seq<NodeTx>, e: Entry, n: nat)
    requires entries != []
    ensures Unrecorded(entries[..|entries| - 1], e, n) <==> Unrecorded(entries, e, n) && n < |entries| - 1
  {
    var init := entries[..|entries| - 1];
    assert forall k :: 0 <= k < |init| ==> init[k] == entries[k];
  }

  lemma LastRepeats(entries: seq<NodeTx>)
    requires entries != []
    ensures var init, last := entries[..|entries| - 1], |entries| - 1;
      Repeats(entries, last) <==> FirstListed(init, EntryOf(entries[last])).Some?
  {
    var init, last := entries[..|entries| - 1], |entries| - 1;
    FirstListedIs(init, EntryOf(entries[last]));
    hide FirstListed;
    assert forall k :: 0 <= k < |init| ==> init[k] == entries[k];
    if k: nat :| FirstAt(init, EntryOf(entries[last]), k) {
      assert EntryOf(entries[k]) == EntryOf(entries[last]);
    }
  }

  /** The last entry matters when an earlier one has the key as well. */
  lemma RepeatsInit(entries: seq<NodeTx>, e: Entry)
    requires entries != []
    ensures var init, last := entries[..|entries| - 1], entries[|entries| - 1];
      RepeatsWorthless(entries, e) <==>
        RepeatsWorthless(init, e) && (EntryOf(last) == e && FirstListed(init, e).Some? ==> last.amount == 0)
  {
    var init, last := entries[..|entries| - 1], |entries| - 1;
    LastRepeats(entries);
    assert Unrecorded(entries, e, last) <==>
             EntryOf(entries[last]) == e && FirstListed(init, e).Some? && entries[last].amount > 0;
    forall n: nat
      ensures Unrecorded(entries, e, n) <==> Unrecorded(init, e, n) || (n == last && Unrecorded(entries, e, last))
    {
      UnrecordedBefore(entries, e, n);
      assert Unrecorded(entries, e, n) ==> n < |entries|;
    }
    hide Unrecorded, FirstListed, EntryOf;
  }

  lemma {:induction false} NothingListed(entries: seq<NodeTx>, e: Entry)
    requires forall n :: 0 <= n < |entries| ==> EntryOf(entries[n]) != e
    ensures ListedTotal(entries, e) == 0
  {
    if entries != [] {
      NothingListed(entries[..|entries| - 1], e);
    }
  }

  // -------------------------------------------------------------- the invariant

  predicate IsDeposit(r: Tx) {
    r.direction.Incoming? && r.hash != ""
  }

  function KeyOf(r: Tx): Entry {
    Entry(r.hash, r.direction, r.address)
  }

  predicate Carries(r: Tx, first: Option<Output>) {
    first.Some? && r.amount == first.value.amount
  }

  /** Each deposit carries the amount of the output its key was first listed with. */
  ghost predicate AmountsOk(txs: map<TxId, Tx>, listed: seq<NodeTx>) {
    forall i :: i in txs && IsDeposit(txs[i]) ==> Carries(txs[i], FirstListed(listed, KeyOf(txs[i])))
  }

  ghost predicate AllKnown(txs: map<TxId, Tx>, listed: seq<NodeTx>) {
    forall n :: 0 <= n < |listed| ==> listed[n].hash != "" && Known(txs, EntryOf(listed[n]))
  }

  ghost predicate CoveredListed(w: World) {
    forall i, o :: 0 <= i < |w.chain| && o in w.chain[i].outputs && Covered(w.chain, w.db.lastBlock, i) ==>
      Lists(w.listed, o)
  }

  /** Every transaction is in one block, with whatever was listed of it. */
  ghost predicate ChainFits(w: World) {
    && (forall i :: 0 <= i < |w.chain| ==> Fits(w.listed, w.chain[i]))
    && forall i, j :: 0 <= i < j < |w.chain| ==> Disjoint(w.chain[i], w.chain[j])
  }

  ghost predicate DepositsOk(w: World) {
    AmountsOk(w.db.txs, w.listed) && AllKnown(w.db.txs, w.listed) && CoveredListed(w) && ChainFits(w)
  }

  /** No deposit appears, and those there were keep their key and amount. */
  ghost predicate SameDeposits(txs: map<TxId, Tx>, txs': map<TxId, Tx>) {
    forall i :: i in txs' && IsDeposit(txs'[i]) ==>
      i in txs && IsDeposit(txs[i]) && KeyOf(txs[i]) == KeyOf(txs'[i]) && txs[i].amount == txs'[i].amount
  }

  lemma KnownGrows(txs: map<TxId, Tx>, txs': map<TxId, Tx>, listed: seq<NodeTx>)
    requires AllKnown(txs, listed) && Grows(txs, txs')
    ensures AllKnown(txs', listed)
  {
    forall n | 0 <= n < |listed|
      ensures Known(txs', EntryOf(listed[n]))
    {
      var e := EntryOf(listed[n]);
      var i :| i in txs && Entry(txs[i].hash, txs[i].direction, txs[i].address) == e;
      assert RowStep(txs[i], txs'[i]);
    }
  }

  lemma SameDepositsKeep(w: World, w': World)
    requires DepositsOk(w) && SameDeposits(w.db.txs, w'.db.txs) && Grows(w.db.txs, w'.db.txs)
    requires w'.listed == w.listed && w'.chain == w.chain && CoveredListed(w')
    ensures DepositsOk(w')
  {
    KnownGrows(w.db.txs, w'.db.txs, w.listed);
  }

  lemma TouchedDeposits(txs: map<TxId, Tx>, txs': map<TxId, Tx>, id: TxId, newId: TxId, hashes: set<string>)
    requires TableTouched(txs, txs', id, newId, hashes) && newId !in txs
    ensures SameDeposits(txs, txs')
  {
  }

  // ---------------------------------------------------------------- the polls

  lemma {:induction false} RefreshDeposits(cfg: Config, s: Scan, order: seq<TxId>, infos: map<string, Info>)
    requires s.Scan? && DbOk(cfg, s.db, s.past)
    requires forall n :: 0 <= n < |order| ==> order[n] in s.db.txs && s.db.txs[order[n]].hash != ""
    ensures ScanKnown(cfg, s, order, infos).Scan?
    ensures SameDeposits(s.db.txs, ScanKnown(cfg, s, order, infos).db.txs)
  {
    hide DbOk, Frame, TakeIn;
    if order != [] {
      var n := |order| - 1;
      RefreshDeposits(cfg, s, order[..n], infos);
      ScanKnownKeeps(cfg, s, order[..n], infos);
      var p := ScanKnown(cfg, s, order[..n], infos);
      BroadcastRow(cfg, s, p, order[n]);
      var row := p.db.txs[order[n]];
      if row.hash in infos {
        TakeInKnown(cfg, p, Refreshed(row, infos), NIL_ID, order[n]);
        assert KeyOf(Observed(cfg, row, Refreshed(row, infos))) == KeyOf(row);
      }
    }
  }

  /** One more entry: a known key keeps its amount, a new one gets this entry's. */
  lemma EntryAmounts(cfg: Config, p: Scan, n: NodeTx, newId: TxId, listed: seq<NodeTx>)
    requires p.Scan? && DbOk(cfg, p.db, p.past)
    requires n.hash != "" && (n.direction.Outgoing? ==> Known(p.db.txs, EntryOf(n)))
    requires newId != NIL_ID && newId !in p.db.txs && newId !in p.past.lost
    requires AmountsOk(p.db.txs, listed) && AllKnown(p.db.txs, listed)
    ensures TakeIn(cfg, p, FromNode(n), newId).Scan?
    ensures AmountsOk(TakeIn(cfg, p, FromNode(n), newId).db.txs, listed + [n])
  {
    hide DbOk, FirstListed, AllKnown, AmountsOk, Known, ScanOk, TakeIn;
    var t := FromNode(n);
    if i :| i in p.db.txs && SameKey(p.db.txs[i], t) {
      TakeInKnown(cfg, p, t, newId, i);
      KnownAmount(p.db.txs, i, Observed(cfg, p.db.txs[i], t), listed, n);
    } else {
      assert n.direction.Incoming? by {
        NotKnownYet(p.db.txs, n);
      }
      TakeInNew(cfg, p, n, newId);
      NotListedYet(p.db.txs, listed, n);
      NewAmount(p.db.txs, newId, Observed(cfg, t.(id := newId), t), listed, n);
    }
    assert ScanOk(cfg, p, TakeIn(cfg, p, t, newId));
    ScanIsScan(cfg, p, TakeIn(cfg, p, t, newId));
  }

  lemma ScanIsScan(cfg: Config, s: Scan, p: Scan)
    requires ScanOk(cfg, s, p)
    ensures p.Scan?
  {
  }

  lemma FirstListedSnoc(listed: seq<NodeTx>, n: NodeTx, e: Entry)
    ensures FirstListed(listed + [n], e)
         == if FirstListed(listed, e).Some? || EntryOf(n) != e then FirstListed(listed, e) else Some(OutputOf(n))
  {
    assert (listed + [n])[..|listed|] == listed;
  }

  lemma KnownAmount(txs: map<TxId, Tx>, i: TxId, r: Tx, listed: seq<NodeTx>, n: NodeTx)
    requires AmountsOk(txs, listed) && i in txs && KeyOf(r) == KeyOf(txs[i]) && r.amount == txs[i].amount
    ensures AmountsOk(txs[i := r], listed + [n])
  {
    var txs' := txs[i := r];
    forall j | j in txs' && IsDeposit(txs'[j])
      ensures Carries(txs'[j], FirstListed(listed + [n], KeyOf(txs'[j])))
    {
      assert j in txs && IsDeposit(txs[j]);
      FirstListedSnoc(listed, n, KeyOf(txs[j]));
    }
  }

  lemma NewAmount(txs: map<TxId, Tx>, id: TxId, r: Tx, listed: seq<NodeTx>, n: NodeTx)
    requires AmountsOk(txs, listed) && id !in txs && KeyOf(r) == EntryOf(n) && r.amount == n.amount
    requires FirstListed(listed, EntryOf(n)).None?
    ensures AmountsOk(txs[id := r], listed + [n])
  {
    var txs' := txs[id := r];
    forall j | j in txs' && IsDeposit(txs'[j])
      ensures Carries(txs'[j], FirstListed(listed + [n], KeyOf(txs'[j])))
    {
      FirstListedSnoc(listed, n, KeyOf(txs'[j]));
    }
  }

  lemma NotKnownYet(txs: map<TxId, Tx>, n: NodeTx)
    requires forall i :: i in txs ==> !SameKey(txs[i], FromNode(n))
    ensures !Known(txs, EntryOf(n))
  {
    forall i | i in txs
      ensures Entry(txs[i].hash, txs[i].direction, txs[i].address) != EntryOf(n)
    {
      assert !SameKey(txs[i], FromNode(n));
    }
  }

  lemma NotListedYet(txs: map<TxId, Tx>, listed: seq<NodeTx>, n: NodeTx)
    requires AllKnown(txs, listed) && forall i :: i in txs ==> !SameKey(txs[i], FromNode(n))
    ensures FirstListed(listed, EntryOf(n)).None?
  {
    FirstListedIs(listed, EntryOf(n));
    forall k | 0 <= k < |listed|
      ensures EntryOf(listed[k]) != EntryOf(n)
    {
      assert Known(txs, EntryOf(listed[k]));
      var i :| i in txs && Entry(txs[i].hash, txs[i].direction, txs[i].address) == EntryOf(listed[k]);
      assert !SameKey(txs[i], FromNode(n));
    }
  }

  lemma {:induction false} ListingAmounts(cfg: Config, s: Scan, entries: seq<NodeTx>, ids: seq<TxId>, listed: seq<NodeTx>)
    requires s.Scan? && DbOk(cfg, s.db, s.past) && EntriesOk(s, entries, ids)
    requires AmountsOk(s.db.txs, listed) && AllKnown(s.db.txs, listed)
    ensures ScanNew(cfg, s, entries, ids).Scan?
    ensures AmountsOk(ScanNew(cfg, s, entries, ids).db.txs, listed + entries)
    ensures AllKnown(ScanNew(cfg, s, entries, ids).db.txs, listed + entries)
  {
    hide DbOk, TakeIn, Frame, AmountsOk, AllKnown, ScanOk, TakenIn, EntriesOk, Known;
    ScanNewKeeps(cfg, s, entries, ids);
    SameListing(s, entries, ids);
    ScanIsScan(cfg, s, ScanNew(cfg, s, entries, ids));
    ListedKnown(cfg, s, ScanNew(cfg, s, entries, ids), entries, ids, listed);
    if entries == [] {
      assert listed + entries == listed;
    } else {
      var n := |entries| - 1;
      EntriesPrefix(s, entries, ids, n);
      ListingAmounts(cfg, s, entries[..n], ids[..n], listed);
      ScanNewKeeps(cfg, s, entries[..n], ids[..n]);
      var p := ScanNew(cfg, s, entries[..n], ids[..n]);
      ScanNewReady(cfg, s, p, entries, ids, n);
      ScanIsDb(cfg, s, p);
      EntryAmounts(cfg, p, entries[n], ids[n], listed + entries[..n]);
      assert listed + entries == listed + entries[..n] + [entries[n]];
    }
  }

  lemma SameListing(s: Scan, entries: seq<NodeTx>, ids: seq<TxId>)
    requires EntriesOk(s, entries, ids)
    ensures |ids| == |entries|
    ensures forall n :: 0 <= n < |entries| ==> entries[n].hash != ""
  {
  }

  lemma ScanIsDb(cfg: Config, s: Scan, p: Scan)
    requires ScanOk(cfg, s, p)
    ensures p.Scan? && DbOk(cfg, p.db, p.past)
  {
  }

  lemma ListedKnown(cfg: Config, s: Scan, p: Scan, entries: seq<NodeTx>, ids: seq<TxId>, listed: seq<NodeTx>)
    requires ScanOk(cfg, s, p) && TakenIn(s, p, entries, ids) && EntriesOk(s, entries, ids)
    requires AllKnown(s.db.txs, listed)
    ensures AllKnown(p.db.txs, listed + entries)
  {
    FrameGrows(s.db.txs, p.db.txs, NIL_ID);
    KnownGrows(s.db.txs, p.db.txs, listed);
    hide DbOk, Known, Frame;
  }

  // ------------------------------------------------------------------ the steps

  /** A step that takes no listing in: nothing is newly covered. */
  lemma CoveredStays(w: World, w': World)
    requires CoveredListed(w) && w'.chain == w.chain && w'.listed == w.listed && w'.db.lastBlock == w.db.lastBlock
    ensures CoveredListed(w')
  {
  }

  lemma MineListed(cfg: Config, w: World, b: Block)
    requires CoveredListed(w) && ChainOk(w) && Legal(cfg, w, Mine(b))
    ensures CoveredListed(w.(chain := w.chain + [b]))
  {
    var w' := w.(chain := w.chain + [b]);
    hide Lists;
    forall i: nat, o | i < |w'.chain| && o in w'.chain[i].outputs && Covered(w'.chain, w'.db.lastBlock, i)
      ensures Lists(w'.listed, o)
    {
      MineCovers(w.chain, b, w.db.lastBlock, i);
      assert w'.chain[i] == if i < |w.chain| then w.chain[i] else b;
    }
  }

  lemma MineFits(cfg: Config, w: World, b: Block)
    requires ChainFits(w) && Legal(cfg, w, Mine(b))
    ensures ChainFits(w.(chain := w.chain + [b]))
  {
    hide Fits, Disjoint;
  }

  lemma ListingFits(w: World, w': World, entries: seq<NodeTx>, lastBlock: string, ids: seq<TxId>)
    requires ChainFits(w) && ListingOk(w, entries, lastBlock, ids)
    requires w'.chain == w.chain && w'.listed == w.listed + entries
    ensures ChainFits(w')
  {
    hide Disjoint;
    forall i | 0 <= i < |w.chain|
      ensures Fits(w'.listed, w.chain[i])
    {
      assert Fits(w.listed, w.chain[i]) && Fits(entries, w.chain[i]);
    }
  }

  lemma ListingListed(w: World, w': World, entries: seq<NodeTx>, lastBlock: string, ids: seq<TxId>)
    requires CoveredListed(w) && ListingOk(w, entries, lastBlock, ids)
    requires w'.chain == w.chain && w'.listed == w.listed + entries
    ensures CoveredListed(w')
  {
    forall i: nat, o | i < |w.chain| && o in w.chain[i].outputs
      ensures Lists(w'.listed, o)
    {
      if Covered(w.chain, w.db.lastBlock, i) {
        assert Lists(w.listed, o);
        var n :| 0 <= n < |w.listed| && OutputOf(w.listed[n]) == o;
        assert w'.listed[n] == w.listed[n];
      } else {
        assert Lists(entries, o);
        var n :| 0 <= n < |entries| && OutputOf(entries[n]) == o;
        assert w'.listed[|w.listed| + n] == entries[n];
      }
    }
  }

  lemma MarkDeposits(cfg: Config, db: Db, past: Past, marks: seq<Mark>)
    requires DbOk(cfg, db, past)
    ensures MarkAll(db, marks).Stored? && SameDeposits(db.txs, MarkAll(db, marks).db.txs)
    decreases |marks|
  {
    hide DbOk, Frame, UpdatePendingTxStatus;
    if marks != [] {
      var m := marks[|marks| - 1];
      var r := MarkAll(db, marks[..|marks| - 1]);
      MarkDeposits(cfg, db, past, marks[..|marks| - 1]);
      MarkAllKeeps(cfg, db, past, marks[..|marks| - 1]);
      if m.id in r.db.txs && Scheduled(r.db.txs[m.id].status) && Scheduled(m.status) {
        StatusDeposits(cfg, r.db, past, m.id, m.status);
      }
    }
  }

  lemma StatusDeposits(cfg: Config, db: Db, past: Past, id: TxId, s: Status)
    requires DbOk(cfg, db, past) && id in db.txs && Waiting(db.txs[id].status) && !db.txs[id].status.Cancelled? && Waiting(s)
    ensures var r := UpdatePendingTxStatus(db, db.txs[id], s);
      r.Stored? && r.db.txs == db.txs[id := db.txs[id].(status := s)] && SameDeposits(db.txs, r.db.txs)
  {
    assert RowOk(cfg, id, db.txs[id]);
    PendingStatusKeeps(cfg, db, past, db.txs[id], s);
  }

  /** What a request of a client or the scheduler does to deposits: nothing. */
  lemma RequestDeposits(cfg: Config, w: World, a: Action)
    requires Inv(cfg, w) && Legal(cfg, w, a) && w.proc.Idle?
    requires a.Withdraw? || a.Confirm? || a.Resend? || a.Cancel? || a.MarkPending?
    ensures var w' := Next(cfg, w, a);
      && SameDeposits(w.db.txs, w'.db.txs)
      && w'.chain == w.chain && w'.listed == w.listed && w'.db.lastBlock == w.db.lastBlock
  {
    hide Inv, UpdatePendingTxStatus, MarkAll, Dispatch, SameDeposits, UnsentRecord, Ready;
    SameDepositsSame(w.db.txs);
    InvDb(cfg, w);
    match a
    case Withdraw(r, toCold, out, newId) => WithdrawDeposits(cfg, w, r, toCold, out, newId);
    case Confirm(id, out, newId) =>
      if id in w.db.txs && w.db.txs[id].status.PendingManual? {
        ConfirmReady(cfg, w, id);
        StoredIsUnsent(cfg, w, id);
        DispatchDeposits(cfg, w.(confirmed := w.confirmed + {id}), w.db.txs[id], out, newId);
      }
    case Resend(id, out, newId) =>
      if id in w.db.txs && Scheduled(w.db.txs[id].status) {
        ResendReady(cfg, w, id);
        StoredIsUnsent(cfg, w, id);
        DispatchDeposits(cfg, w, w.db.txs[id], out, newId);
      }
    case Cancel(id, out) =>
      if id in w.db.txs && (Scheduled(w.db.txs[id].status) || w.db.txs[id].status.PendingManual?) {
        StatusDeposits(cfg, w.db, w.past, id, Cancelled);
        CancelIs(cfg, w, id, out);
        CancelFrame(cfg, w, id);
      }
    case MarkPending(marks, need, out) =>
      MarkDeposits(cfg, w.db, w.past, marks);
      MarkAllKeeps(cfg, w.db, w.past, marks);
  }

  lemma SameDepositsSame(txs: map<TxId, Tx>)
    ensures SameDeposits(txs, txs)
  {
  }

  lemma CancelFrame(cfg: Config, w: World, id: TxId)
    requires Inv(cfg, w) && w.proc.Idle? && id in w.db.txs
    requires Waiting(w.db.txs[id].status) && !w.db.txs[id].status.Cancelled?
    ensures UpdatePendingTxStatus(w.db, w.db.txs[id], Cancelled).Stored?
    ensures UpdatePendingTxStatus(w.db, w.db.txs[id], Cancelled).db.lastBlock == w.db.lastBlock
  {
    StoredIsUnsent(cfg, w, id);
    PendingStatusShape(w.db, w.db.txs[id], Cancelled);
  }

  lemma DispatchDeposits(cfg: Config, w: World, t: Tx, out: Commit, newId: TxId)
    requires Inv(cfg, w) && w.proc.Idle? && UnsentRecord(cfg, w, t) && FreshId(w, newId) && newId != t.id
    ensures var w' := Dispatch(cfg, w, t, out, newId);
      && SameDeposits(w.db.txs, w'.db.txs)
      && w'.chain == w.chain && w'.listed == w.listed && w'.db.lastBlock == w.db.lastBlock
  {
    hide Inv, UnsentRecord, Dispatch, TableTouched, SentTouched;
    DispatchTouches(cfg, w, t, out, newId, {});
    TouchedDeposits(w.db.txs, Dispatch(cfg, w, t, out, newId).db.txs, t.id, newId, {});
  }

  lemma WithdrawDeposits(cfg: Config, w: World, r: Request, toCold: bool, out: Commit, newId: TxId)
    requires Inv(cfg, w) && w.proc.Idle? && Legal(cfg, w, Withdraw(r, toCold, out, newId))
    ensures var w' := DoWithdraw(cfg, w, r, toCold, out, newId);
      && SameDeposits(w.db.txs, w'.db.txs)
      && w'.chain == w.chain && w'.listed == w.listed && w'.db.lastBlock == w.db.lastBlock
  {
    SameDepositsSame(w.db.txs);
    var admitted := Admit(cfg, r, toCold);
    if admitted.Some? && r.id !in w.db.txs {
      AdmitKeepsId(cfg, r, toCold);
      var t := admitted.value.0;
      if admitted.value.1 {
        HeldDeposits(w.db, t);
        hide Inv, Dispatch, SameDeposits, UpdatePendingTxStatus;
      } else {
        AdmittedReady(cfg, w, r, toCold, newId, Refused(false));
        hide Inv, Dispatch, UnsentRecord, SameDeposits;
        DispatchDeposits(cfg, w, t, out, newId);
      }
    }
  }

  lemma HeldDeposits(db: Db, t: Tx)
    requires t.id != NIL_ID && t.id !in db.txs && t.hash == "" && t.status != PendingManual
    ensures var r := UpdatePendingTxStatus(db, t, PendingManual);
      r.Stored? && SameDeposits(db.txs, r.db.txs) && r.db.lastBlock == db.lastBlock
  {
    PendingStatusShape(db, t, PendingManual);
  }

  /** Every step keeps the amounts of deposits. */
  lemma StepDeposits(cfg: Config, w: World, a: Action)
    requires Inv(cfg, w) && Legal(cfg, w, a) && DepositsOk(w)
    ensures DepositsOk(Next(cfg, w, a))
  {
    var w' := Next(cfg, w, a);
    StepKeeps(cfg, w, a);
    hide Grows, SameDeposits, AmountsOk, AllKnown, CoveredListed, Inv, ListingOk, RefreshOk, Touched, Next, DepositsOk;
    SameDepositsSame(w.db.txs);
    if a.PollNew? && w.proc.Idle? {
      PollDeposits(cfg, w, a.entries, a.lastBlock, a.ids, a.out);
    } else if a.Mine? {
      MineDeposits(cfg, w, a.block);
    } else {
      QuietStep(cfg, w, a);
      CoveredIs(w);
      CoveredStays(w, w');
      SameDepositsKeep(w, w');
    }
  }

  lemma CoveredIs(w: World)
    requires DepositsOk(w)
    ensures CoveredListed(w)
  {
  }

  lemma MineDeposits(cfg: Config, w: World, b: Block)
    requires Inv(cfg, w) && Legal(cfg, w, Mine(b)) && DepositsOk(w)
    ensures DepositsOk(Next(cfg, w, Mine(b)))
  {
    hide AmountsOk, AllKnown, CoveredListed, ChainFits, Legal, DbOk, SentOk, HoldOk, FlightOk, ChainOk;
    MineListed(cfg, w, b);
    MineFits(cfg, w, b);
  }

  /** Any other step: no deposit appears or changes its amount. */
  lemma QuietStep(cfg: Config, w: World, a: Action)
    requires Inv(cfg, w) && Legal(cfg, w, a) && !a.Mine? && !(a.PollNew? && w.proc.Idle?)
    ensures var w' := Next(cfg, w, a);
      && SameDeposits(w.db.txs, w'.db.txs)
      && w'.chain == w.chain && w'.listed == w.listed && w'.db.lastBlock == w.db.lastBlock
  {
    hide Inv, SameDeposits, DoPersistSent, DoPersistFailed, DoWithdraw, DoConfirm, DoResend, DoCancel, DoMark, ScanKnown,
      RefreshOk, Touched;
    SameDepositsSame(w.db.txs);
    if a.Persist? || a.NodeReplies? {
      BusyDeposits(cfg, w, a);
    } else if a.PollKnown? {
      if w.proc.Idle? {
        RefreshStep(cfg, w, a.order, a.infos, a.out);
      }
    } else if a.Withdraw? || a.Confirm? || a.Resend? || a.Cancel? || a.MarkPending? {
      if w.proc.Idle? {
        RequestDeposits(cfg, w, a);
      }
    }
  }

  /** The node's reply and the attempts to save it touch no deposit. */
  lemma BusyDeposits(cfg: Config, w: World, a: Action)
    requires Inv(cfg, w) && Legal(cfg, w, a) && (a.Persist? || a.NodeReplies?)
    ensures var w' := Next(cfg, w, a);
      && SameDeposits(w.db.txs, w'.db.txs)
      && w'.chain == w.chain && w'.listed == w.listed && w'.db.lastBlock == w.db.lastBlock
  {
    InvDb(cfg, w);
    DbFacts(cfg, w.db, w.past);
    SameDepositsSame(w.db.txs);
    hide Inv, SameDeposits, DoPersistSent, DoPersistFailed, TableTouched, SentTouched, DbOk;
    var txs' := Next(cfg, w, a).db.txs;
    if a.Persist? && w.proc.Sent? {
      var t := w.proc.tx;
      PersistSentTouches(cfg, w, t, w.proc.tries, a.attempt, NIL_ID, {t.hash});
      TouchedDeposits(w.db.txs, txs', t.id, NIL_ID, {t.hash});
    } else if a.Persist? && w.proc.Failed? {
      PersistFailedTouches(cfg, w, w.proc.tx, w.proc.makePending, w.proc.tries, a.attempt, NIL_ID, {});
      TouchedDeposits(w.db.txs, txs', w.proc.tx.id, NIL_ID, {});
    }
  }

  lemma RefreshStep(cfg: Config, w: World, order: seq<TxId>, infos: map<string, Info>, out: Commit)
    requires Inv(cfg, w) && w.proc.Idle? && RefreshOk(cfg, w, order, infos)
    ensures var w' := DoPoll(w, ScanKnown(cfg, Scan(w.db, w.past), order, infos), w.db.lastBlock, out);
      && SameDeposits(w.db.txs, w'.db.txs)
      && w'.chain == w.chain && w'.listed == w.listed && w'.db.lastBlock == w.db.lastBlock
  {
    PollKnownStart(cfg, w, order, infos);
    RefreshDeposits(cfg, Scan(w.db, w.past), order, infos);
    SameDepositsSame(w.db.txs);
    hide Inv, SameDeposits, ScanKnown, RefreshOk;
  }

  lemma PollDeposits(
    cfg: Config, w: World, entries: seq<NodeTx>, lastBlock: string, ids: seq<TxId>, out: Commit)
    requires Inv(cfg, w) && w.proc.Idle? && ListingOk(w, entries, lastBlock, ids) && DepositsOk(w)
    ensures DepositsOk(Next(cfg, w, PollNew(entries, lastBlock, ids, out)))
  {
    var s := Scan(w.db, w.past);
    PollNewStart(cfg, w, entries, lastBlock, ids);
    SameListing(s, entries, ids);
    hide AmountsOk, AllKnown, CoveredListed, ChainFits, Inv, DbOk, EntriesOk, ListingOk, Next, ScanNew;
    ListingAmounts(cfg, s, entries, ids, w.listed);
    var p := ScanNew(cfg, s, entries, ids);
    PollNewIs(cfg, w, entries, lastBlock, ids, out, p);
    if !out.Dropped? {
      ListingListed(w, Next(cfg, w, PollNew(entries, lastBlock, ids, out)), entries, lastBlock, ids);
      ListingFits(w, Next(cfg, w, PollNew(entries, lastBlock, ids, out)), entries, lastBlock, ids);
    }
  }

  lemma {:induction false} RunDeposits(cfg: Config, accounts: set<string>, actions: seq<Action>)
    requires cfg.maxConfirmations >= 1 && LegalRun(cfg, Genesis(accounts), actions)
    ensures DepositsOk(Run(cfg, Genesis(accounts), actions))
  {
    hide Inv, Legal, Next, DepositsOk;
    GenesisInv(cfg, accounts);
    if actions == [] {
      GenesisDeposits(accounts);
    } else {
      var init := actions[..|actions| - 1];
      RunDeposits(cfg, accounts, init);
      RunKeeps(cfg, Genesis(accounts), init);
      StepDeposits(cfg, Run(cfg, Genesis(accounts), init), actions[|actions| - 1]);
    }
  }

  lemma GenesisDeposits(accounts: set<string>)
    ensures DepositsOk(Genesis(accounts))
  {
  }

  lemma ReachableDeposits(cfg: Config, w: World)
    requires cfg.maxConfirmations >= 1 && Reachable(cfg, w)
    ensures Inv(cfg, w) && DepositsOk(w)
  {
    hide Inv, Run, LegalRun, Genesis, DepositsOk;
    ReachableInv(cfg, w);
    var accounts, actions :|
      LegalRun(cfg, Genesis(accounts), actions) && w == Run(cfg, Genesis(accounts), actions);
    RunDeposits(cfg, accounts, actions);
  }

  // ------------------------------------------------------------ covered outputs

  /** The outputs with this hash, direction and address in blocks up to the last seen one. */
  ghost function CoveredOutputs(w: World, e: Entry): set<Output> {
    set i, o | 0 <= i < |w.chain| && o in w.chain[i].outputs && o.entry == e && Covered(w.chain, w.db.lastBlock, i) :: o
  }

  /** What a set of outputs is worth together. */
  ghost function Worth(outputs: set<Output>): nat {
    if outputs == {} then 0
    else
      var o :| o in outputs;
      o.amount + Worth(outputs - {o})
  }

  lemma {:induction false} WorthWithout(outputs: set<Output>, o: Output)
    requires o in outputs
    ensures Worth(outputs) == o.amount + Worth(outputs - {o})
    decreases |outputs|
  {
    var c :| c in outputs && Worth(outputs) == c.amount + Worth(outputs - {c});
    if c != o {
      WorthWithout(outputs - {c}, o);
      WorthWithout(outputs - {o}, c);
      assert outputs - {c} - {o} == outputs - {o} - {c};
    }
  }

  ghost predicate Worthless(outputs: set<Output>) {
    forall o :: o in outputs ==> o.amount == 0
  }

  lemma {:induction false} WorthNothingIff(outputs: set<Output>)
    ensures Worth(outputs) == 0 <==> Worthless(outputs)
  {
    if outputs != {} {
      var o :| o in outputs;
      WorthWithout(outputs, o);
      WorthNothingIff(outputs - {o});
      assert outputs == outputs - {o} + {o};
    }
  }

  // --------------------------------------------------------------- the theorems

  /** The output a covered key was first listed with is one of the covered ones. */
  lemma FirstIsCovered(cfg: Config, w: World, o: Output)
    requires DepositsOk(w) && o in CoveredOutputs(w, o.entry)
    ensures FirstListed(w.listed, o.entry).Some?
    ensures FirstListed(w.listed, o.entry).value in CoveredOutputs(w, o.entry)
  {
    hide AmountsOk, AllKnown, Disjoint;
    var i :| 0 <= i < |w.chain| && o in w.chain[i].outputs && Covered(w.chain, w.db.lastBlock, i);
    assert Lists(w.listed, o);
    var n :| 0 <= n < |w.listed| && OutputOf(w.listed[n]) == o;
    FirstListedIs(w.listed, o.entry);
    hide FirstListed;
    assert EntryOf(w.listed[n]) == o.entry;
    var m: nat :| FirstAt(w.listed, o.entry, m);
    assert Fits(w.listed, w.chain[i]);
    assert OutputOf(w.listed[m]) in w.chain[i].outputs;
  }

  /** Every wallet transaction in a block up to the last seen one has a row.  A deposit has
      exactly one for its hash, direction and address, worth the output it was first listed
      with; it is worth all covered outputs of that key together if and only if the others
      are worth nothing. */
  lemma NoMissedDeposit(cfg: Config, w: World, o: Output)
    requires cfg.maxConfirmations >= 1 && Reachable(cfg, w) && o in CoveredOutputs(w, o.entry)
    ensures Known(w.db.txs, o.entry)
    ensures FirstListed(w.listed, o.entry).Some?
    ensures FirstListed(w.listed, o.entry).value in CoveredOutputs(w, o.entry)
    ensures forall i, j :: i in w.db.txs && j in w.db.txs && KeyOf(w.db.txs[i]) == KeyOf(w.db.txs[j]) == o.entry ==> i == j
    ensures o.entry.direction.Incoming? ==>
              var all, first := CoveredOutputs(w, o.entry), FirstListed(w.listed, o.entry).value;
              forall i :: i in w.db.txs && KeyOf(w.db.txs[i]) == o.entry ==>
                && w.db.txs[i].amount == first.amount
                && (w.db.txs[i].amount == Worth(all) <==> Worthless(all - {first}))
  {
    hide Reachable, Inv, FirstListed, Worth, CoveredOutputs, CoveredListed, ChainFits, AllKnown, Known, Worthless;
    ReachableDeposits(cfg, w);
    FirstIsCovered(cfg, w, o);
    var all, first := CoveredOutputs(w, o.entry), FirstListed(w.listed, o.entry).value;
    WorthWithout(all, first);
    WorthNothingIff(all - {first});
    OneRow(cfg, w, o);
    forall i | i in w.db.txs && KeyOf(w.db.txs[i]) == o.entry && o.entry.direction.Incoming?
      ensures w.db.txs[i].amount == first.amount
    {
      assert IsDeposit(w.db.txs[i]);
    }
  }

  /** A covered key has exactly one row. */
  lemma OneRow(cfg: Config, w: World, o: Output)
    requires Inv(cfg, w) && o in CoveredOutputs(w, o.entry)
    ensures Known(w.db.txs, o.entry) && o.entry.hash != ""
    ensures forall i, j :: i in w.db.txs && j in w.db.txs && KeyOf(w.db.txs[i]) == KeyOf(w.db.txs[j]) == o.entry ==> i == j
  {
    var b :| 0 <= b < |w.chain| && o in w.chain[b].outputs && Covered(w.chain, w.db.lastBlock, b);
    assert BlockOk(w.chain[b]);
    forall i, j | i in w.db.txs && j in w.db.txs && KeyOf(w.db.txs[i]) == KeyOf(w.db.txs[j]) == o.entry
      ensures i == j
    {
      assert SameKey(w.db.txs[i], w.db.txs[j]);
    }
  }

  /** No two covered outputs of one transaction pay to one deposit address. */
  ghost predicate OneOutputEach(w: World) {
    forall e: Entry, o, p :: e.direction.Incoming? && o in CoveredOutputs(w, e) && p in CoveredOutputs(w, e) ==> o == p
  }

  /** Then every deposit in a block up to the last seen one is recorded with its amount. */
  lemma EveryDepositInFull(cfg: Config, w: World, o: Output)
    requires cfg.maxConfirmations >= 1 && Reachable(cfg, w) && OneOutputEach(w)
    requires o in CoveredOutputs(w, o.entry) && o.entry.direction.Incoming?
    ensures exists i :: i in w.db.txs && KeyOf(w.db.txs[i]) == o.entry && w.db.txs[i].amount == o.amount
  {
    NoMissedDeposit(cfg, w, o);
    hide Reachable, FirstListed, Worth, Worthless;
    var all, first := CoveredOutputs(w, o.entry), FirstListed(w.listed, o.entry).value;
    hide CoveredOutputs;
    var i :| i in w.db.txs && Entry(w.db.txs[i].hash, w.db.txs[i].direction, w.db.txs[i].address) == o.entry;
    assert KeyOf(w.db.txs[i]) == o.entry;
  }

  /** A committed listing, one entry whose hash, direction and address had no row: the
      new row carries the amount of the first such entry, so it is worth what the listing
      gives that key in total if and only if the repeated entries are worth nothing. */
  lemma ListingCreditedIff(
    cfg: Config, w: World, entries: seq<NodeTx>, lastBlock: string, ids: seq<TxId>, n: nat)
    requires cfg.maxConfirmations >= 1 && Reachable(cfg, w) && w.proc.Idle?
    requires ListingOk(w, entries, lastBlock, ids) && n < |entries| && entries[n].direction.Incoming?
    requires !Known(w.db.txs, EntryOf(entries[n]))
    ensures var txs', e := Next(cfg, w, PollNew(entries, lastBlock, ids, Committed)).db.txs, EntryOf(entries[n]);
      && Known(txs', e)
      && (forall i :: i in txs' && KeyOf(txs'[i]) == e ==>
            && Carries(txs'[i], FirstListed(entries, e))
            && (txs'[i].amount == ListedTotal(entries, e) <==> RepeatsWorthless(entries, e)))
  {
    ReachableDeposits(cfg, w);
    hide Reachable;
    var w', e := Next(cfg, w, PollNew(entries, lastBlock, ids, Committed)), EntryOf(entries[n]);
    PollDeposits(cfg, w, entries, lastBlock, ids, Committed);
    PollNewStart(cfg, w, entries, lastBlock, ids);
    SameListing(Scan(w.db, w.past), entries, ids);
    ScanNewKeeps(cfg, Scan(w.db, w.past), entries, ids);
    PollNewIs(cfg, w, entries, lastBlock, ids, Committed, ScanNew(cfg, Scan(w.db, w.past), entries, ids));
    UnknownIsUnlisted(w, e);
    FirstListedAppend(w.listed, entries, e);
    FirstListedIs(entries, e);
    hide Inv, Next, ListingOk, DbOk, EntriesOk, ScanNew, FirstListed, RepeatsWorthless, ScanOk, ChainFits, CoveredListed;
    TotalIsFirstIff(entries, e);
    forall i | i in w'.db.txs && KeyOf(w'.db.txs[i]) == e
      ensures Carries(w'.db.txs[i], FirstListed(entries, e))
    {
      assert IsDeposit(w'.db.txs[i]);
    }
  }

  lemma UnknownIsUnlisted(w: World, e: Entry)
    requires DepositsOk(w) && !Known(w.db.txs, e)
    ensures FirstListed(w.listed, e).None?
  {
    FirstListedIs(w.listed, e);
    hide FirstListed;
  }

  // ------------------------------------- two outputs of one transaction to one address

  const PAIR_ENTRY := Entry("hash", Incoming, "deposit")

  function PairBlock(a: nat, b: nat): Block {
    Block("block", {Output(PAIR_ENTRY, 0, a), Output(PAIR_ENTRY, 1, b)})
  }

  /** The node lists both outputs. */
  function PairListing(a: nat, b: nat): seq<NodeTx> {
    [NodeTx("hash", "block", 1, "deposit", Incoming, a, 0), NodeTx("hash", "block", 1, "deposit", Incoming, b, 1)]
  }

  function PairActions(a: nat, b: nat): seq<Action> {
    [Restart, Mine(PairBlock(a, b)), PollNew(PairListing(a, b), "block", [1, 2], Committed)]
  }

  lemma PairMined(a: nat, b: nat)
    ensures var w := Run(EXAMPLE_CONFIG, Genesis({}), PairActions(a, b)[..2]);
      && LegalRun(EXAMPLE_CONFIG, Genesis({}), PairActions(a, b)[..2])
      && w == Genesis({}).(proc := Idle, chain := [PairBlock(a, b)])
  {
    var c, g, xs := EXAMPLE_CONFIG, Genesis({}), PairActions(a, b);
    assert xs[..1] == [] + [xs[0]] && xs[..2] == xs[..1] + [xs[1]];
    RunSnoc(c, g, [], xs[0]);
    RunSnoc(c, g, xs[..1], xs[1]);
  }

  lemma PairListingOk(w: World, a: nat, b: nat)
    requires w == Genesis({}).(proc := Idle, chain := [PairBlock(a, b)])
    ensures ListingOk(w, PairListing(a, b), "block", [1, 2])
  {
    forall o | o in PairBlock(a, b).outputs
      ensures Lists(PairListing(a, b), o)
    {
      assert OutputOf(PairListing(a, b)[o.vout]) == o;
    }
  }

  lemma PairPolled(w: World, a: nat, b: nat)
    requires w == Genesis({}).(proc := Idle, chain := [PairBlock(a, b)]) && Inv(EXAMPLE_CONFIG, w)
    ensures var w' := Next(EXAMPLE_CONFIG, w, PollNew(PairListing(a, b), "block", [1, 2], Committed));
      w'.chain == w.chain && w'.listed == PairListing(a, b) && w'.db.lastBlock == "block"
  {
    PairListingOk(w, a, b);
    var s, entries := Scan(w.db, w.past), PairListing(a, b);
    PollNewStart(EXAMPLE_CONFIG, w, entries, "block", [1, 2]);
    hide Inv, DbOk, EntriesOk, ListingOk, Next, ScanNew, PairListing;
    ScanNewKeeps(EXAMPLE_CONFIG, s, entries, [1, 2]);
    PollNewIs(EXAMPLE_CONFIG, w, entries, "block", [1, 2], Committed, ScanNew(EXAMPLE_CONFIG, s, entries, [1, 2]));
  }

  lemma PairCovered(w: World, a: nat, b: nat)
    requires w.chain == [PairBlock(a, b)] && w.db.lastBlock == "block" && w.listed == PairListing(a, b)
    ensures CoveredOutputs(w, PAIR_ENTRY) == PairBlock(a, b).outputs
    ensures Worth(CoveredOutputs(w, PAIR_ENTRY)) == a + b
    ensures FirstListed(w.listed, PAIR_ENTRY) == Some(Output(PAIR_ENTRY, 0, a))
  {
    var first, second := Output(PAIR_ENTRY, 0, a), Output(PAIR_ENTRY, 1, b);
    assert w.chain[0].hash == w.db.lastBlock && Covered(w.chain, w.db.lastBlock, 0);
    assert CoveredOutputs(w, PAIR_ENTRY) == {first, second};
    WorthWithout({first, second}, first);
    assert {first, second} - {first} == {second};
    WorthWithout({second}, second);
    assert {second} - {second} == {};
    FirstListedIs(w.listed, PAIR_ENTRY);
    hide FirstListed;
    assert FirstAt(w.listed, PAIR_ENTRY, 0);
  }

  /** Two outputs of one transaction to one deposit address, worth a and b: the run is
      legal, their block counts as seen, and all that is recorded of a + b is a. */
  lemma SecondOutputIsMissed(a: nat, b: nat)
    ensures var w := Run(EXAMPLE_CONFIG, Genesis({}), PairActions(a, b));
      && LegalRun(EXAMPLE_CONFIG, Genesis({}), PairActions(a, b))
      && Worth(CoveredOutputs(w, PAIR_ENTRY)) == a + b
      && Known(w.db.txs, PAIR_ENTRY)
      && forall i :: i in w.db.txs && KeyOf(w.db.txs[i]) == PAIR_ENTRY ==> w.db.txs[i].amount == a
  {
    var c, g, xs := EXAMPLE_CONFIG, Genesis({}), PairActions(a, b);
    PairMined(a, b);
    var w2 := Run(c, g, xs[..2]);
    PairListingOk(w2, a, b);
    assert xs == xs[..2] + [xs[2]];
    RunSnoc(c, g, xs[..2], xs[2]);
    GenesisInv(c, {});
    RunKeeps(c, g, xs[..2]);
    PairPolled(w2, a, b);
    var w := Run(c, g, xs);
    assert Reachable(c, w);
    hide Run, LegalRun, Next, Reachable, Worth, CoveredOutputs, FirstListed, Known, Inv, Worthless;
    PairCovered(w, a, b);
    NoMissedDeposit(c, w, Output(PAIR_ENTRY, 0, a));
  }
}
