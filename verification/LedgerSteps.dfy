/** Every write the wallet makes keeps the invariant of module LedgerInvariant and
    stays inside the frame the withdrawal protocol relies on. */
module LedgerSteps {
  import opened Types
  import opened Ledger
  import opened LedgerInvariant

  // --------------------------------------------------------------- the frame

  predicate SameIdentity(a: Tx, b: Tx) {
    a.id == b.id && a.address == b.address && a.direction == b.direction && a.amount == b.amount && a.cold == b.cold
  }

  /** A row may gain a hash, never change one; a cancelled row is final. */
  predicate RowStep(a: Tx, b: Tx) {
    && SameIdentity(a, b)
    && (a.hash != "" ==> b.hash == a.hash)
    && (a.status.Cancelled? ==> b == a)
    && a.reported <= b.reported
  }

  /** A regular withdrawal that has passed the manual confirmation gate. */
  predicate Released(r: Tx) {
    r.direction.Outgoing? && !r.cold && !r.status.PendingManual? && !r.status.Cancelled?
  }

  /** Rows are never removed; only the withdrawal `actor` may newly be released, newly
      be cancelled or newly get a hash as an outgoing transaction. */
  ghost predicate Frame(txs: map<TxId, Tx>, txs': map<TxId, Tx>, actor: TxId) {
    && (forall i :: i in txs ==> i in txs' && RowStep(txs[i], txs'[i]))
    && forall i :: i in txs' && i != actor ==>
         && (Released(txs'[i]) ==> i in txs && Released(txs[i]))
         && (txs'[i].status.Cancelled? ==> i in txs && txs[i].status.Cancelled?)
         && (txs'[i].direction.Outgoing? && txs'[i].hash != "" ==> i in txs && txs[i].hash != "")
  }

  lemma FrameTrans(a: map<TxId, Tx>, b: map<TxId, Tx>, c: map<TxId, Tx>, actor: TxId)
    requires Frame(a, b, actor) && Frame(b, c, actor)
    ensures Frame(a, c, actor)
  {
    forall i | i in a ensures i in c && RowStep(a[i], c[i]) {
      assert i in b && RowStep(a[i], b[i]) && RowStep(b[i], c[i]);
    }
  }

  // ------------------------------------------------------------ notification

  lemma NotifyShape(cfg: Config, db: Db, i: TxId, row: Tx)
    requires row.id == i
    ensures Notify(cfg, db.(txs := db.txs[i := row]), row)
         == db.(txs := db.txs[i := row.(reported := Max(row.reported, Top(cfg, row)))],
                events := db.events + Reports(cfg, row, row.reported + 1, Top(cfg, row)))
  {
    if Top(cfg, row) <= row.reported {
      assert db.events + [] == db.events;
    } else {
      assert db.txs[i := row][i := row.(reported := Top(cfg, row))] == db.txs[i := row.(reported := Top(cfg, row))];
    }
  }

  lemma ReportsAppend(cfg: Config, s: seq<Event>, row: Tx, base: int, es: seq<Event>)
    requires StreamOk(cfg, s, row.direction, base, row.reported)
    requires !Waiting(row.status)
    requires es == Reports(cfg, row, row.reported + 1, Top(cfg, row))
    ensures StreamOk(cfg, s + es, row.direction, base, Max(row.reported, Top(cfg, row)))
    ensures OfRow(s, row) ==> OfRow(s + es, row)
  {
    var all := s + es;
    forall k | |s| <= k < |all|
      ensures OfRow([all[k]], row)
    {
      assert all[k] == es[k - |s|] == Report(cfg, row, base + k);
      ReportShape(cfg, row, base + k);
    }
    assert forall k :: |s| <= k < |all| ==> OfRow([all[k]], row) && [all[k]][0] == all[k];
    forall k | 0 <= k < |all|
      ensures && all[k].tx.confirmations == base + k
              && KindIs(row.direction, all[k].kind, base + k)
              && StatusIs(cfg, all[k].tx.status, base + k)
              && (base + k == 0 ==> all[k].tx.blockHash == "")
    {
      if k < |s| {
        assert all[k] == s[k];
      } else {
        assert all[k] == es[k - |s|] == Report(cfg, row, base + k);
        ReportShape(cfg, row, base + k);
      }
    }
  }

  lemma ReportsExtend(cfg: Config, s: seq<Event>, row: Tx, base: int, es: seq<Event>)
    requires StreamOk(cfg, s, row.direction, base, row.reported)
    requires !Waiting(row.status)
    requires es == Reports(cfg, row, row.reported + 1, Top(cfg, row))
    ensures forall j :: j != row.id ==> Stream(es, j) == []
    ensures StreamOk(cfg, s + Stream(es, row.id), row.direction, base, Max(row.reported, Top(cfg, row)))
    ensures OfRow(s, row) ==> OfRow(s + Stream(es, row.id), row)
  {
    hide StreamOk, OfRow, Stream, Reports;
    ReportsAppend(cfg, s, row, base, es);
    forall j ensures Stream(es, j) == if j == row.id then es else [] {
      StreamOfReports(cfg, row, row.reported + 1, Top(cfg, row), j);
    }
  }

  // --------------------------------------------------------- pending statuses

  /** A withdrawal that has not been handed to the node. */
  predicate Unsent(cfg: Config, t: Tx) {
    && t.id != NIL_ID
    && t.hash == ""
    && t.direction.Outgoing?
    && t.address != cfg.hotAddress
    && t.reported == -1
    && t.confirmations == 0
  }

  /** The row of `t`, if there is one, differs from `t` in its status at most. */
  predicate RowMatches(txs: map<TxId, Tx>, t: Tx) {
    t.id in txs ==>
      && Waiting(txs[t.id].status)
      && !txs[t.id].status.Cancelled?
      && txs[t.id] == t.(status := txs[t.id].status)
  }

  lemma PendingStatusShape(db: Db, t: Tx, s: Status)
    requires t.id != NIL_ID && t.hash == "" && t.status != s
    requires t.id in db.txs ==> db.txs[t.id] == t.(status := db.txs[t.id].status)
    ensures UpdatePendingTxStatus(db, t, s)
         == Stored(db.(txs := db.txs[t.id := t.(status := s)],
                       events := db.events + [Event(PendingKind(s), t.(status := s))]),
                   t.(status := s))
  {
  }

  lemma SilentEvent(e: Event, id: TxId)
    requires !IsReport(e.kind)
    ensures Stream([e], id) == []
  {
    assert [e][..0] == [];
  }

  lemma NoStreamYet(cfg: Config, db: Db, past: Past, id: TxId)
    requires StreamsOk(cfg, db, past)
    requires id in db.txs ==> db.txs[id].reported == -1
    ensures Stream(db.events, id) == []
    ensures id in db.txs ==> id !in past.lost
  {
    if id in db.txs {
      assert StreamOk(cfg, Stream(db.events, id), db.txs[id].direction, Base(past, id), -1);
    }
  }

  lemma PendingStatusKeeps(cfg: Config, db: Db, past: Past, t: Tx, s: Status)
    requires DbOk(cfg, db, past)
    requires Unsent(cfg, t) && !t.cold && Waiting(s)
    requires RowMatches(db.txs, t)
    requires t.status == s ==> t.id in db.txs && db.txs[t.id] == t
    requires t.id !in db.txs ==> t.id !in past.lost
    ensures var r := UpdatePendingTxStatus(db, t, s);
            && r.Stored?
            && r.db.txs == db.txs[t.id := t.(status := s)]
            && r.db.(txs := db.txs, events := db.events) == db
            && DbOk(cfg, r.db, past)
  {
    var t' := t.(status := s);
    if t.status == s {
      assert db.txs == db.txs[t.id := t'];
    } else {
      PendingStatusShape(db, t, s);
      var e := Event(PendingKind(s), t');
      forall j ensures Stream([e], j) == [] {
        SilentEvent(e, j);
      }
      NoStreamYet(cfg, db, past, t.id);
      assert past.polled + [] == past.polled;
      PutRow(cfg, db, past, t.id, t', [e], []);
    }
  }

  /** Replacing one row stays inside the frame. */
  lemma FrameRow(txs: map<TxId, Tx>, i: TxId, r: Tx, actor: TxId)
    requires i in txs ==> RowStep(txs[i], r)
    requires i != actor ==> (Released(r) ==> i in txs && Released(txs[i]))
    requires i != actor ==> (r.status.Cancelled? ==> i in txs && txs[i].status.Cancelled?)
    requires i != actor ==> (r.direction.Outgoing? && r.hash != "" ==> i in txs && txs[i].hash != "")
    ensures Frame(txs, txs[i := r], actor)
  {
  }

  // ----------------------------------------------------------------- polling

  /** The row after a count for it was taken over from the node. */
  function Observed(cfg: Config, row: Tx, t: Tx): Tx {
    var m := Merge(row, WithStatus(cfg, t));
    if Silent(cfg, row) then m else m.(reported := Max(row.reported, Top(cfg, t)))
  }

  lemma ExistingIs(txs: map<TxId, Tx>, t: Tx, i: TxId)
    requires UniqueKeys(txs) && i in txs
    requires i != NIL_ID && t.hash != "" && SameKey(txs[i], t) && (t.id == NIL_ID || t.id == i)
    ensures Existing(txs, t) == Some(i)
  {
  }

  /** What is written when a count for row i arrives. */
  function ObservedReports(cfg: Config, row: Tx, t: Tx): seq<Event> {
    if Silent(cfg, row) then []
    else Reports(cfg, Merge(row, WithStatus(cfg, t)), row.reported + 1, Top(cfg, t))
  }

  lemma ObserveKnownShape(cfg: Config, db: Db, t: Tx, newId: TxId, i: TxId)
    requires UniqueKeys(db.txs)
    requires i in db.txs && db.txs[i].id == i != NIL_ID
    requires t.hash != "" && SameKey(db.txs[i], t) && (t.id == NIL_ID || t.id == i)
    ensures UpdateTxInfo(cfg, db, t, newId)
         == Stored(db.(txs := db.txs[i := Observed(cfg, db.txs[i], t)],
                       events := db.events + ObservedReports(cfg, db.txs[i], t)),
                   Merge(db.txs[i], WithStatus(cfg, t)))
  {
    var row, t' := db.txs[i], WithStatus(cfg, t);
    ExistingIs(db.txs, t', i);
    NotifyShape(cfg, db, i, Merge(row, t'));
    assert db.events + [] == db.events;
  }

  lemma ObserveNewShape(cfg: Config, db: Db, t: Tx, newId: TxId)
    requires t.id == NIL_ID && forall j :: j in db.txs ==> !SameKey(db.txs[j], t)
    requires !t.cold
    ensures UpdateTxInfo(cfg, db, t, newId)
         == Stored(db.(txs := db.txs[newId := Observed(cfg, t.(id := newId), t)],
                       events := db.events + ObservedReports(cfg, t.(id := newId), t)),
                   Merge(t.(id := newId), WithStatus(cfg, t)))
  {
    NotifyShape(cfg, db, newId, WithStatus(cfg, t).(id := newId));
    assert db.events + [] == db.events;
  }

  lemma ObservedRow(cfg: Config, past: Past, i: TxId, row: Tx, t: Tx)
    requires cfg.maxConfirmations >= 1
    requires row.id == i != NIL_ID && -1 <= row.reported <= cfg.maxConfirmations
    requires row.hash == t.hash != "" && !Waiting(t.status)
    requires Silent(cfg, row) ==> row.reported == -1
    requires !Silent(cfg, row) ==> row.reported == Max(Start(past, row), Peak(cfg, past.polled, i))
    ensures RowOk(cfg, i, Observed(cfg, row, t))
    ensures PeakOk(cfg, past.(polled := past.polled + [Poll(i, t.confirmations)]), Observed(cfg, row, t))
  {
    MergedShape(cfg, row, t);
    hide Merge, WithStatus, Peak;
    assert RowOk(cfg, i, Observed(cfg, row, t));
    PeakSnoc(cfg, past.polled, Poll(i, t.confirmations), i);
  }

  /** The row a count is written over, before it is reported. */
  lemma MergedShape(cfg: Config, row: Tx, t: Tx)
    requires !Waiting(t.status)
    ensures var m := Merge(row, WithStatus(cfg, t));
            && m.id == row.id && m.direction == row.direction && m.address == row.address && m.cold == row.cold
            && m.amount == row.amount
            && m.reported == row.reported && m.hash == t.hash && m.confirmations == t.confirmations
            && StatusIs(cfg, m.status, t.confirmations)
            && Top(cfg, m) == Top(cfg, t) && !Waiting(m.status)
  {
  }

  lemma ObservedStream(cfg: Config, s: seq<Event>, base: int, row: Tx, t: Tx)
    requires !Waiting(t.status) && StreamOk(cfg, s, row.direction, base, row.reported)
    ensures forall j :: j != row.id ==> Stream(ObservedReports(cfg, row, t), j) == []
    ensures StreamOk(cfg, s + Stream(ObservedReports(cfg, row, t), row.id), row.direction, base,
                     Observed(cfg, row, t).reported)
    ensures OfRow(s, row) && row.hash == t.hash ==>
              OfRow(s + Stream(ObservedReports(cfg, row, t), row.id), Observed(cfg, row, t))
  {
    var m := Merge(row, WithStatus(cfg, t));
    MergedShape(cfg, row, t);
    ObservedShape(cfg, row, t);
    hide StreamOk, OfRow, Stream, Reports, Merge, WithStatus, StatusIs, Waiting, Top, Observed, ObservedReports, Silent;
    var es := ObservedReports(cfg, row, t);
    if Silent(cfg, row) {
      StreamOfNone();
      assert s + [] == s;
      assert s + Stream(es, row.id) == s;
    } else {
      ReportsExtend(cfg, s, m, base, es);
    }
    SameRows(s, s + Stream(es, row.id), row, m, Observed(cfg, row, t), row.hash == t.hash);
  }

  /** Events of one row are events of another that looks the same to a listener. */
  lemma SameRows(s: seq<Event>, s': seq<Event>, r: Tx, m: Tx, o: Tx, same: bool)
    requires same ==> r.hash == m.hash && r.address == m.address && r.amount == m.amount
    requires m.hash == o.hash && m.address == o.address && m.amount == o.amount
    requires s == s' || (OfRow(s, m) ==> OfRow(s', m))
    ensures OfRow(s, r) && same ==> OfRow(s', o)
  {
  }

  lemma StreamOfNone()
    ensures forall j :: Stream([], j) == []
  {
  }

  lemma ObservedShape(cfg: Config, row: Tx, t: Tx)
    ensures var m, o := Merge(row, WithStatus(cfg, t)), Observed(cfg, row, t);
      && o.hash == m.hash && o.address == m.address && o.amount == m.amount
      && o.reported == (if Silent(cfg, row) then m.reported else Max(m.reported, Top(cfg, t)))
      && ObservedReports(cfg, row, t) == if Silent(cfg, row) then [] else Reports(cfg, m, m.reported + 1, Top(cfg, t))
  {
  }

  /** The row of a polled transaction, written over with a count for the same key. */
  lemma PutObserved(cfg: Config, db: Db, past: Past, i: TxId, row: Tx, t: Tx)
    requires DbOk(cfg, db, past)
    requires row.id == i != NIL_ID && -1 <= row.reported <= cfg.maxConfirmations
    requires row.hash == t.hash != "" && !Waiting(t.status)
    requires forall j :: j in db.txs && j != i ==> !SameKey(db.txs[j], row)
    requires Silent(cfg, row) ==> row.reported == -1
    requires !Silent(cfg, row) ==> row.reported == Max(Start(past, row), Peak(cfg, past.polled, i))
    requires StreamOk(cfg, Stream(db.events, i), row.direction, Base(past, i), row.reported)
    requires OfRow(Stream(db.events, i), row)
    ensures DbOk(cfg,
                 db.(txs := db.txs[i := Observed(cfg, row, t)], events := db.events + ObservedReports(cfg, row, t)),
                 past.(polled := past.polled + [Poll(i, t.confirmations)]))
  {
    hide StreamOk, OfRow, Stream, PeakOk, RowOk, ObservedReports, StreamsOk, PeaksOk, RowsOk, UniqueKeys;
    ObservedRow(cfg, past, i, row, t);
    ObservedStream(cfg, Stream(db.events, i), Base(past, i), row, t);
    var r, es := Observed(cfg, row, t), ObservedReports(cfg, row, t);
    assert SameKey(r, row) && r.direction == row.direction;
    assert forall j :: j in db.txs && j != i ==> !SameKey(db.txs[j], r);
    PutRow(cfg, db, past, i, r, es, [Poll(i, t.confirmations)]);
  }

  lemma ObserveKnown(cfg: Config, db: Db, past: Past, t: Tx, newId: TxId, i: TxId)
    requires DbOk(cfg, db, past)
    requires i in db.txs && t.hash != "" && SameKey(db.txs[i], t) && (t.id == NIL_ID || t.id == i)
    requires !Waiting(t.status)
    ensures var r := UpdateTxInfo(cfg, db, t, newId);
            && r.Stored?
            && r.tx.id == i
            && r.db.txs == db.txs[i := Observed(cfg, db.txs[i], t)]
            && r.db.(txs := db.txs, events := db.events) == db
            && DbOk(cfg, r.db, past.(polled := past.polled + [Poll(i, t.confirmations)]))
  {
    var row := db.txs[i];
    assert RowOk(cfg, i, row) && PeakOk(cfg, past, row);
    ObserveKnownShape(cfg, db, t, newId, i);
    PutObserved(cfg, db, past, i, row, t);
  }

  lemma ObserveNew(cfg: Config, db: Db, past: Past, t: Tx, newId: TxId)
    requires DbOk(cfg, db, past)
    requires t.id == NIL_ID && t.hash != "" && forall j :: j in db.txs ==> !SameKey(db.txs[j], t)
    requires t.direction.Incoming? && !t.cold && t.reported == -1 && !Waiting(t.status)
    requires newId != NIL_ID && newId !in db.txs && newId !in past.lost
    ensures var r := UpdateTxInfo(cfg, db, t, newId);
            && r.Stored?
            && r.tx.id == newId
            && r.db.txs == db.txs[newId := Observed(cfg, t.(id := newId), t)]
            && r.db.(txs := db.txs, events := db.events) == db
            && DbOk(cfg, r.db, past.(polled := past.polled + [Poll(newId, t.confirmations)]))
  {
    NeverPolled(cfg, past.polled, newId);
    NoStreamYet(cfg, db, past, newId);
    ObserveNewShape(cfg, db, t, newId);
    PutObserved(cfg, db, past, newId, t.(id := newId), t);
  }

  // ------------------------------------------------- saving a sent withdrawal

  /** The record of a withdrawal the node has accepted, and what the database holds
      about it: nothing, a row still waiting, or what an earlier attempt installed. */
  ghost predicate SentRecord(cfg: Config, txs: map<TxId, Tx>, past: Past, t: Tx) {
    && t.id != NIL_ID && t.hash != "" && t.direction.Outgoing? && t.address != cfg.hotAddress
    && t.status.New? && t.confirmations == 0 && -1 <= t.reported <= 0
    && (t.cold ==> t.reported == -1)
    && (forall j :: j in txs && txs[j].hash == t.hash ==> j == t.id)
    && (t.id !in txs ==>
          && t.id !in past.delayed
          && (t.reported == 0 <==> t.id in past.lost))
    && (t.id in txs ==> SameIdentity(txs[t.id], t))
    && (t.id in txs && txs[t.id].hash == "" ==>
          && Waiting(txs[t.id].status)
          && !txs[t.id].status.Cancelled?
          && (t.reported == 0 <==> t.id in past.delayed))
    && (t.id in txs && txs[t.id].hash != "" ==> Merge(txs[t.id], t) == txs[t.id] && (t.cold || t.reported == 0))
  }

  /** The row an attempt to save `t` leaves. */
  function SavedRow(txs: map<TxId, Tx>, t: Tx): Tx {
    var m := if t.id in txs then Merge(txs[t.id], t) else t;
    if t.cold || t.reported == 0 then m else m.(reported := 0)
  }

  function SavedEvents(cfg: Config, t: Tx): seq<Event> {
    if t.cold || t.reported == 0 then [] else [Report(cfg, t, 0)]
  }

  lemma SaveSentShape(cfg: Config, db: Db, past: Past, t: Tx)
    requires cfg.maxConfirmations >= 1 && SentRecord(cfg, db.txs, past, t)
    ensures SaveSent(cfg, db, t)
         == Stored(db.(txs := db.txs[t.id := SavedRow(db.txs, t)],
                       events := db.events + SavedEvents(cfg, t),
                       lock := None),
                   AfterNotify(cfg, t))
  {
    assert db.events + [] == db.events;
    assert Existing(db.txs, t) == if t.id in db.txs then Some(t.id) else None;
    var m := if t.id in db.txs then Merge(db.txs[t.id], t) else t;
    assert Store(db, t, t.id) == Stored(db.(txs := db.txs[t.id := m]), m);
    assert t.reported == -1 ==> Reports(cfg, t, 0, 0) == [Report(cfg, t, 0)];
    assert db.txs[t.id := m][t.id := m.(reported := 0)] == db.txs[t.id := m.(reported := 0)];
  }

  lemma SavedStream(cfg: Config, db: Db, past: Past, t: Tx)
    requires DbOk(cfg, db, past) && SentRecord(cfg, db.txs, past, t)
    ensures var es := SavedEvents(cfg, t);
            && (forall j :: j != t.id ==> Stream(es, j) == [])
            && StreamOk(cfg, Stream(db.events, t.id) + Stream(es, t.id), Outgoing, Base(past, t.id),
                        SavedRow(db.txs, t).reported)
            && OfRow(Stream(db.events, t.id) + Stream(es, t.id), SavedRow(db.txs, t))
  {
    var es := SavedEvents(cfg, t);
    ReportShape(cfg, t, 0);
    if es != [] {
      NoStreamYet(cfg, db, past, t.id);
      assert es[..0] == [];
    } else {
      assert Stream(db.events, t.id) + [] == Stream(db.events, t.id);
    }
  }

  lemma SavedRowOk(cfg: Config, db: Db, past: Past, t: Tx)
    requires DbOk(cfg, db, past) && SentRecord(cfg, db.txs, past, t)
    ensures RowOk(cfg, t.id, SavedRow(db.txs, t))
    ensures PeakOk(cfg, past, SavedRow(db.txs, t))
  {
    if t.id !in db.txs || db.txs[t.id].hash == "" {
      NeverPolled(cfg, past.polled, t.id);
    }
    if t.id in db.txs {
      assert RowOk(cfg, t.id, db.txs[t.id]) && PeakOk(cfg, past, db.txs[t.id]);
    }
  }

  lemma SavedRecord(cfg: Config, txs: map<TxId, Tx>, past: Past, t: Tx)
    requires cfg.maxConfirmations >= 1 && RowsOk(cfg, txs) && SentRecord(cfg, txs, past, t)
    ensures SentRecord(cfg, txs[t.id := SavedRow(txs, t)], past, AfterNotify(cfg, t))
    ensures Frame(txs, txs[t.id := SavedRow(txs, t)], t.id)
  {
    assert t.id in txs ==> RowOk(cfg, t.id, txs[t.id]);
    FrameRow(txs, t.id, SavedRow(txs, t), t.id);
  }

  lemma DbOkSameTables(cfg: Config, a: Db, b: Db, past: Past)
    requires DbOk(cfg, a, past) && a.txs == b.txs && a.events == b.events
    ensures DbOk(cfg, b, past)
  {
  }

  /** Saving a broadcast withdrawal puts its hash into its row and no other, writes its
      first event unless that was done before or it goes to cold storage, and releases
      the lock. */
  lemma SaveSentKeeps(cfg: Config, db: Db, past: Past, t: Tx)
    requires DbOk(cfg, db, past) && SentRecord(cfg, db.txs, past, t)
    ensures var r := SaveSent(cfg, db, t);
            && r.Stored? && DbOk(cfg, r.db, past)
            && r.db.lock.None? && r.db.(txs := db.txs, events := db.events, lock := db.lock) == db
            && t.id in r.db.txs && r.db.txs[t.id].hash == t.hash && r.db.txs[t.id].status.New?
            && r.db.txs == db.txs[t.id := r.db.txs[t.id]]
            && r.db.events == db.events + if t.cold || t.reported == 0 then [] else [Report(cfg, t, 0)]
  {
    var row, es := SavedRow(db.txs, t), SavedEvents(cfg, t);
    SaveSentShape(cfg, db, past, t);
    SavedStream(cfg, db, past, t);
    SavedRowOk(cfg, db, past, t);
    assert past.polled + [] == past.polled;
    PutRow(cfg, db, past, t.id, row, es, []);
    DbOkSameTables(cfg, db.(txs := db.txs[t.id := row], events := db.events + es), SaveSent(cfg, db, t).db, past);
  }

  // ------------------------------------------------------- internal transfers

  function LegId(t: Tx, newId: TxId): TxId {
    if t.id == NIL_ID then newId else t.id
  }

  /** The row one side of an internal transfer is stored as, before it is reported. */
  function LegRow(txs: map<TxId, Tx>, t: Tx, newId: TxId): Tx {
    if t.id != NIL_ID && t.id in txs then Merge(txs[t.id], t) else t.(id := LegId(t, newId))
  }

  ghost predicate Leg(cfg: Config, txs: map<TxId, Tx>, past: Past, t: Tx, newId: TxId) {
    && t.hash == "" && t.status.FullyConfirmed? && t.confirmations == cfg.maxConfirmations && t.reported == -1
    && LegId(t, newId) != NIL_ID
    && LegId(t, newId) !in past.lost
    && (t.id == NIL_ID ==> newId !in txs)
    && (t.id in txs ==> Waiting(txs[t.id].status))
  }

  lemma TransferLegShape(cfg: Config, db: Db, past: Past, t: Tx, newId: TxId)
    requires cfg.maxConfirmations >= 1 && RowsOk(cfg, db.txs) && Leg(cfg, db.txs, past, t, newId)
    ensures StoreAndNotify(cfg, db, t, newId)
         == Stored(db.(txs := db.txs[LegId(t, newId) := LegRow(db.txs, t, newId).(reported := cfg.maxConfirmations)],
                       events := db.events + Reports(cfg, LegRow(db.txs, t, newId), 0, cfg.maxConfirmations)),
                   LegRow(db.txs, t, newId))
  {
    assert t.id in db.txs ==> RowOk(cfg, t.id, db.txs[t.id]);
    assert NIL_ID !in db.txs;
    var i, row := LegId(t, newId), LegRow(db.txs, t, newId);
    assert Store(db, t, newId) == Stored(db.(txs := db.txs[i := row]), row);
    NotifyShape(cfg, db, i, row);
  }

  lemma TransferLegRow(cfg: Config, db: Db, past: Past, t: Tx, newId: TxId)
    requires DbOk(cfg, db, past) && Leg(cfg, db.txs, past, t, newId)
    ensures var i, row := LegId(t, newId), LegRow(db.txs, t, newId);
            && row.id == i && row.reported == -1 && row.hash == "" && Top(cfg, row) == cfg.maxConfirmations
            && row.status.FullyConfirmed?
            && RowOk(cfg, i, row.(reported := cfg.maxConfirmations))
            && (i in db.txs ==> db.txs[i].hash == "")
            && Stream(db.events, i) == [] && i !in past.lost
  {
    assert t.id in db.txs ==> RowOk(cfg, t.id, db.txs[t.id]);
    NoStreamYet(cfg, db, past, LegId(t, newId));
  }

  lemma TransferLegKeeps(cfg: Config, db: Db, past: Past, t: Tx, newId: TxId)
    requires DbOk(cfg, db, past) && Leg(cfg, db.txs, past, t, newId)
    ensures StoreAndNotify(cfg, db, t, newId).Stored?
    ensures DbOk(cfg, StoreAndNotify(cfg, db, t, newId).db, past)
  {
    var i, row := LegId(t, newId), LegRow(db.txs, t, newId);
    var es := Reports(cfg, row, 0, cfg.maxConfirmations);
    TransferLegRow(cfg, db, past, t, newId);
    TransferLegShape(cfg, db, past, t, newId);
    assert StreamOk(cfg, [], row.direction, 0, -1);
    assert PeakOk(cfg, past.(polled := past.polled + []), row.(reported := cfg.maxConfirmations));
    hide StreamOk, Stream, Reports, RowOk, PeakOk, StreamsOk, PeaksOk, RowsOk, UniqueKeys, StoreAndNotify, LegRow, Leg;
    ReportsExtend(cfg, [], row, 0, es);
    assert past.polled + [] == past.polled;
    PutRow(cfg, db, past, i, row.(reported := cfg.maxConfirmations), es, []);
  }

  ghost predicate Transferable(cfg: Config, txs: map<TxId, Tx>, past: Past, t: Tx, newId: TxId) {
    && Unsent(cfg, t)
    && EffectiveFee(t) <= t.amount
    && RowMatches(txs, t)
    && t.id !in past.lost
    && newId != NIL_ID && newId !in txs && newId != t.id && newId !in past.lost
  }

  /** The table after a transfer: the withdrawal of a regular transfer and the fresh deposit. */
  function TransferTable(cfg: Config, txs: map<TxId, Tx>, t: Tx, newId: TxId): map<TxId, Tx>
    requires EffectiveFee(t) <= t.amount
  {
    var m := cfg.maxConfirmations;
    var out := if t.cold then txs else txs[t.id := LegRow(txs, TransferOut(cfg, t), t.id).(reported := m)];
    out[newId := TransferIn(cfg, t).(id := newId, reported := m)]
  }

  lemma InternalTransferKeeps(cfg: Config, db: Db, past: Past, t: Tx, newId: TxId)
    requires DbOk(cfg, db, past) && Transferable(cfg, db.txs, past, t, newId)
    ensures var r := InternalTransfer(cfg, db, t, newId);
            && r.Stored?
            && r.db.txs == TransferTable(cfg, db.txs, t, newId)
            && r.db.(txs := db.txs, events := db.events) == db
            && DbOk(cfg, r.db, past)
  {
    var db1 := db;
    if !t.cold {
      TransferLegShape(cfg, db, past, TransferOut(cfg, t), t.id);
      TransferLegKeeps(cfg, db, past, TransferOut(cfg, t), t.id);
      db1 := StoreAndNotify(cfg, db, TransferOut(cfg, t), t.id).db;
    }
    TransferLegShape(cfg, db1, past, TransferIn(cfg, t), newId);
    TransferLegKeeps(cfg, db1, past, TransferIn(cfg, t), newId);
  }

  lemma TransferFrame(cfg: Config, txs: map<TxId, Tx>, past: Past, t: Tx, newId: TxId)
    requires RowsOk(cfg, txs) && Transferable(cfg, txs, past, t, newId) && cfg.maxConfirmations >= 1
    ensures Frame(txs, TransferTable(cfg, txs, t, newId), t.id)
  {
    var m := cfg.maxConfirmations;
    var row := LegRow(txs, TransferOut(cfg, t), t.id).(reported := m);
    var out := if t.cold then txs else txs[t.id := row];
    if !t.cold {
      assert t.id in txs ==> RowOk(cfg, t.id, txs[t.id]);
      FrameRow(txs, t.id, row, t.id);
    }
    FrameRow(out, newId, TransferIn(cfg, t).(id := newId, reported := m), t.id);
    FrameTrans(txs, out, TransferTable(cfg, txs, t, newId), t.id);
  }
}
