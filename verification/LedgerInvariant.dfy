/** The invariant of the transactions table and the event log, and the proof that
    writing one row together with its events keeps it. */
module LedgerInvariant {
  import opened Types
  import opened Ledger

  // ------------------------------------------------------- the event streams

  predicate IsReport(k: EventType) {
    !k.PendingStatusUpdated? && !k.PendingTxCancelled?
  }

  /** The confirmation events of one transaction, in the order they were written. */
  function Stream(events: seq<Event>, id: TxId): seq<Event> {
    if events == [] then []
    else
      var last := events[|events| - 1];
      Stream(events[..|events| - 1], id) + if last.tx.id == id && IsReport(last.kind) then [last] else []
  }

  /** The status of a broadcast transaction with n confirmations. */
  predicate StatusIs(cfg: Config, s: Status, n: int) {
    && (n <= 0 ==> s.New?)
    && (0 < n < cfg.maxConfirmations ==> s.Confirmed?)
    && (0 < n && cfg.maxConfirmations <= n ==> s.FullyConfirmed?)
  }

  /** The type of event number n of a deposit or a withdrawal. */
  predicate KindIs(d: Direction, k: EventType, n: int) {
    && (d.Incoming? && n == 0 ==> k.NewIncomingTx?)
    && (d.Incoming? && n != 0 ==> k.IncomingTxConfirmed?)
    && (d.Outgoing? && n == 0 ==> k.NewOutgoingTx?)
    && (d.Outgoing? && n != 0 ==> k.OutgoingTxConfirmed?)
  }

  /** The stream carries base, base + 1, ..., reported once each and in order, and
      the type and status of every event are fixed by its own number. */
  predicate StreamOk(cfg: Config, s: seq<Event>, d: Direction, base: int, reported: int) {
    && |s| == reported - base + 1
    && forall k :: 0 <= k < |s| ==>
         && s[k].tx.confirmations == base + k
         && KindIs(d, s[k].kind, base + k)
         && StatusIs(cfg, s[k].tx.status, base + k)
         && (base + k == 0 ==> s[k].tx.blockHash == "")
  }

  /** Every event is about this transaction as the row has it. */
  predicate OfRow(s: seq<Event>, r: Tx) {
    forall k :: 0 <= k < |s| ==>
      s[k].tx.hash == r.hash && s[k].tx.address == r.address && s[k].tx.amount == r.amount
  }

  lemma {:induction false} StreamConcat(a: seq<Event>, b: seq<Event>, id: TxId)
    ensures Stream(a + b, id) == Stream(a, id) + Stream(b, id)
  {
    if b == [] {
      assert a + b == a;
    } else {
      var b' := b[..|b| - 1];
      assert (a + b)[..|a + b| - 1] == a + b';
      StreamConcat(a, b', id);
    }
  }

  lemma ReportShape(cfg: Config, t: Tx, i: int)
    ensures Report(cfg, t, i).tx.id == t.id
    ensures Report(cfg, t, i).tx.confirmations == i
    ensures IsReport(Report(cfg, t, i).kind)
    ensures KindIs(t.direction, Report(cfg, t, i).kind, i)
    ensures OfRow([Report(cfg, t, i)], t)
    ensures i == 0 ==> Report(cfg, t, i).tx.blockHash == ""
    ensures !Waiting(t.status) ==> StatusIs(cfg, Report(cfg, t, i).tx.status, i)
  {
  }

  lemma {:induction false} StreamOfReports(cfg: Config, t: Tx, lo: int, hi: int, id: TxId)
    ensures Stream(Reports(cfg, t, lo, hi), id) == if id == t.id then Reports(cfg, t, lo, hi) else []
    decreases hi - lo
  {
    if lo <= hi {
      var init, last := Reports(cfg, t, lo, hi - 1), Report(cfg, t, hi);
      ReportShape(cfg, t, hi);
      StreamOfReports(cfg, t, lo, hi - 1, id);
      assert (init + [last])[..|init|] == init;
    }
  }

  // ----------------------------------------------------------- the invariant

  datatype Poll = Poll(id: TxId, confirmations: int)

  /** What has happened so far, kept beside the database: `polled` lists every
      confirmation count taken over from the node.  `lost` and `delayed` are the
      withdrawals whose first event was swallowed by a rolled back attempt to save
      them, when no row, respectively a row, for them was in the table. */
  datatype Past = Past(lost: set<TxId>, delayed: set<TxId>, polled: seq<Poll>)

  /** The highest clamped count the node ever gave for a transaction, at least -1. */
  function Peak(cfg: Config, polled: seq<Poll>, id: TxId): int {
    if polled == [] then -1
    else
      var last := polled[|polled| - 1];
      var before := Peak(cfg, polled[..|polled| - 1], id);
      if last.id == id then Max(before, Min(last.confirmations, cfg.maxConfirmations)) else before
  }

  /** A withdrawal counts as seen with no confirmations from the moment it is saved. */
  function Start(past: Past, r: Tx): int {
    if r.direction.Outgoing? && r.id !in past.delayed then 0 else -1
  }

  function Base(past: Past, id: TxId): int {
    if id in past.lost then 1 else 0
  }

  predicate RowOk(cfg: Config, i: TxId, r: Tx) {
    && r.id == i != NIL_ID
    && -1 <= r.reported <= cfg.maxConfirmations
    && (Waiting(r.status) ==>
          && r.hash == ""
          && r.direction.Outgoing?
          && !r.cold
          && r.address != cfg.hotAddress
          && r.reported == -1
          && r.confirmations == 0)
    && (!Waiting(r.status) ==> StatusIs(cfg, r.status, r.confirmations))
    && (!Waiting(r.status) && r.hash == "" ==> r.confirmations == cfg.maxConfirmations == r.reported)
    && (r.hash != "" && Silent(cfg, r) ==> r.reported == -1)
    && (r.hash != "" && !Silent(cfg, r) && r.reported < cfg.maxConfirmations ==>
          r.confirmations < cfg.maxConfirmations)
  }

  ghost predicate RowsOk(cfg: Config, txs: map<TxId, Tx>) {
    forall i :: i in txs ==> RowOk(cfg, i, txs[i])
  }

  ghost predicate UniqueKeys(txs: map<TxId, Tx>) {
    forall i, j :: i in txs && j in txs && txs[i].hash != "" && SameKey(txs[i], txs[j]) ==> i == j
  }

  ghost predicate StreamsOk(cfg: Config, db: Db, past: Past) {
    && (forall i :: i in db.txs ==>
          && StreamOk(cfg, Stream(db.events, i), db.txs[i].direction, Base(past, i), db.txs[i].reported)
          && OfRow(Stream(db.events, i), db.txs[i]))
    && forall i :: i !in db.txs ==> Stream(db.events, i) == []
  }

  predicate PeakOk(cfg: Config, past: Past, r: Tx) {
    r.hash != "" && !Silent(cfg, r) ==> r.reported == Max(Start(past, r), Peak(cfg, past.polled, r.id))
  }

  ghost predicate PeaksOk(cfg: Config, txs: map<TxId, Tx>, past: Past) {
    && (forall i :: i in txs ==> PeakOk(cfg, past, txs[i]))
    && forall k :: 0 <= k < |past.polled| ==>
         past.polled[k].id in txs && txs[past.polled[k].id].hash != ""
  }

  ghost predicate DbOk(cfg: Config, db: Db, past: Past) {
    && cfg.maxConfirmations >= 1
    && RowsOk(cfg, db.txs)
    && UniqueKeys(db.txs)
    && StreamsOk(cfg, db, past)
    && PeaksOk(cfg, db.txs, past)
  }

  lemma {:induction false} NeverPolled(cfg: Config, polled: seq<Poll>, id: TxId)
    requires forall k :: 0 <= k < |polled| ==> polled[k].id != id
    ensures Peak(cfg, polled, id) == -1
  {
    if polled != [] {
      NeverPolled(cfg, polled[..|polled| - 1], id);
    }
  }

  lemma PeakSnoc(cfg: Config, polled: seq<Poll>, p: Poll, id: TxId)
    ensures Peak(cfg, polled + [p], id)
         == if p.id == id then Max(Peak(cfg, polled, id), Min(p.confirmations, cfg.maxConfirmations))
            else Peak(cfg, polled, id)
  {
    assert (polled + [p])[..|polled|] == polled;
  }

  lemma PutRowStreams(cfg: Config, db: Db, past: Past, i: TxId, r: Tx, es: seq<Event>, past': Past)
    requires StreamsOk(cfg, db, past) && past'.lost == past.lost
    requires forall j :: j != i ==> Stream(es, j) == []
    requires StreamOk(cfg, Stream(db.events, i) + Stream(es, i), r.direction, Base(past, i), r.reported)
    requires OfRow(Stream(db.events, i) + Stream(es, i), r)
    ensures StreamsOk(cfg, db.(txs := db.txs[i := r], events := db.events + es), past')
  {
    hide StreamOk, Stream, OfRow;
    var db' := db.(txs := db.txs[i := r], events := db.events + es);
    forall j ensures j != i ==> Stream(db'.events, j) == Stream(db.events, j) {
      StreamConcat(db.events, es, j);
    }
    StreamConcat(db.events, es, i);
    forall j | j in db'.txs
      ensures StreamOk(cfg, Stream(db'.events, j), db'.txs[j].direction, Base(past', j), db'.txs[j].reported)
      ensures OfRow(Stream(db'.events, j), db'.txs[j])
    {
      if j != i {
        assert j in db.txs;
      }
    }
  }

  /** No count, or one count for row i, which then has a hash. */
  predicate PollsOf(polls: seq<Poll>, i: TxId, r: Tx) {
    |polls| <= 1 && (polls != [] ==> polls[0].id == i && r.hash != "")
  }

  lemma PutRowPeaks(cfg: Config, txs: map<TxId, Tx>, past: Past, i: TxId, r: Tx, polls: seq<Poll>)
    requires PeaksOk(cfg, txs, past) && RowsOk(cfg, txs)
    requires i in txs && txs[i].hash != "" ==> r.hash != ""
    requires PollsOf(polls, i, r)
    requires PeakOk(cfg, past.(polled := past.polled + polls), r)
    ensures PeaksOk(cfg, txs[i := r], past.(polled := past.polled + polls))
  {
    var past' := past.(polled := past.polled + polls);
    forall j | j in txs && j != i ensures PeakOk(cfg, past', txs[j]) {
      assert RowOk(cfg, j, txs[j]) && PeakOk(cfg, past, txs[j]);
      if polls == [] {
        assert past'.polled == past.polled;
      } else {
        assert past'.polled == past.polled + [polls[0]];
        PeakSnoc(cfg, past.polled, polls[0], j);
      }
    }
    forall k | 0 <= k < |past'.polled|
      ensures past'.polled[k].id in txs[i := r] && txs[i := r][past'.polled[k].id].hash != ""
    {
      if k < |past.polled| {
        assert past'.polled[k] == past.polled[k];
      }
    }
  }

  lemma PutRowKeys(cfg: Config, txs: map<TxId, Tx>, i: TxId, r: Tx)
    requires RowsOk(cfg, txs) && UniqueKeys(txs) && RowOk(cfg, i, r)
    requires forall j :: j in txs && j != i && r.hash != "" ==> !SameKey(txs[j], r)
    ensures RowsOk(cfg, txs[i := r]) && UniqueKeys(txs[i := r])
  {
  }

  /** Writing one row together with the events of that row. */
  lemma PutRow(cfg: Config, db: Db, past: Past, i: TxId, r: Tx, es: seq<Event>, polls: seq<Poll>)
    requires DbOk(cfg, db, past)
    requires RowOk(cfg, i, r)
    requires forall j :: j in db.txs && j != i && r.hash != "" ==> !SameKey(db.txs[j], r)
    requires i in db.txs && db.txs[i].hash != "" ==> r.hash != ""
    requires forall j :: j != i ==> Stream(es, j) == []
    requires StreamOk(cfg, Stream(db.events, i) + Stream(es, i), r.direction, Base(past, i), r.reported)
    requires OfRow(Stream(db.events, i) + Stream(es, i), r)
    requires PollsOf(polls, i, r)
    requires PeakOk(cfg, past.(polled := past.polled + polls), r)
    ensures DbOk(cfg, db.(txs := db.txs[i := r], events := db.events + es), past.(polled := past.polled + polls))
  {
    hide StreamsOk, PeaksOk, RowsOk, UniqueKeys, StreamOk, OfRow, Stream, PeakOk, RowOk, SameKey, PollsOf;
    PutRowStreams(cfg, db, past, i, r, es, past.(polled := past.polled + polls));
    PutRowPeaks(cfg, db.txs, past, i, r, polls);
    PutRowKeys(cfg, db.txs, i, r);
  }
}
