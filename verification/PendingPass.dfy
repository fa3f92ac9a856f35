/** A pass over the pending withdrawals, from the rows it reads to the rows it leaves. */
module PendingPass {
  import opened Types
  import opened Ledger
  import opened LedgerInvariant
  import opened LedgerSteps
  import opened WalletMachine
  import opened WalletInvariant
  import opened WalletSteps
  import opened WalletTheorems
  import opened WithdrawalFrame
  import opened WalletCalls
  import opened Scheduler

  // ------------------------------------------------------- what a pass starts from

  ghost predicate DistinctIds(s: seq<Due>) {
    forall j, k :: 0 <= j < k < |s| ==> s[j].id != s[k].id
  }

  /** GetPendingTransactions: every scheduled row, once, with its amount. */
  ghost predicate ListsScheduled(txs: map<TxId, Tx>, s: seq<Due>) {
    && DistinctIds(s)
    && (forall d :: d in s ==> d.id in txs && Scheduled(txs[d.id].status) && d.amount == txs[d.id].amount)
    && forall i :: i in txs && Scheduled(txs[i].status) ==> Due(i, txs[i].amount) in s
  }

  ghost function AmountOf(txs: map<TxId, Tx>, ids: set<TxId>): nat
    requires ids <= txs.Keys
  {
    if ids == {} then 0
    else
      var i :| i in ids;
      txs[i].amount + AmountOf(txs, ids - {i})
  }

  function ScheduledIds(txs: map<TxId, Tx>): set<TxId> {
    set i | i in txs && Scheduled(txs[i].status)
  }

  /** What the scheduled rows are worth together. */
  ghost function ScheduledTotal(txs: map<TxId, Tx>): nat {
    AmountOf(txs, ScheduledIds(txs))
  }

  lemma {:induction false} AmountWithout(txs: map<TxId, Tx>, ids: set<TxId>, i: TxId)
    requires i in ids && ids <= txs.Keys
    ensures AmountOf(txs, ids) == txs[i].amount + AmountOf(txs, ids - {i})
    decreases |ids|
  {
    var c :| c in ids && AmountOf(txs, ids) == txs[c].amount + AmountOf(txs, ids - {c});
    if c != i {
      AmountWithout(txs, ids - {c}, i);
      AmountWithout(txs, ids - {i}, c);
      assert ids - {c} - {i} == ids - {i} - {c};
    }
  }

  lemma {:induction false} TotalIsAmount(txs: map<TxId, Tx>, s: seq<Due>)
    requires DistinctIds(s) && forall d :: d in s ==> d.id in txs && d.amount == txs[d.id].amount
    ensures IdSet(s) <= txs.Keys && Total(s) == AmountOf(txs, IdSet(s))
  {
    if s != [] {
      var init, last := s[..|s| - 1], s[|s| - 1];
      TotalIsAmount(txs, init);
      assert s == init + [last];
      assert last.id !in IdSet(init);
      assert IdSet(s) - {last.id} == IdSet(init);
      AmountWithout(txs, IdSet(s), last.id);
    }
  }

  lemma ListedIsTotal(txs: map<TxId, Tx>, s: seq<Due>)
    requires ListsScheduled(txs, s)
    ensures Total(s) == ScheduledTotal(txs)
  {
    TotalIsAmount(txs, s);
    forall i | i in ScheduledIds(txs)
      ensures i in IdSet(s)
    {
      assert Due(i, txs[i].amount) in s;
    }
    assert IdSet(s) == ScheduledIds(txs);
  }

  lemma {:induction false} DistinctCount(s: seq<Due>, d: Due)
    requires DistinctIds(s)
    ensures multiset(s)[d] <= 1
  {
    if s != [] {
      var init, last := s[..|s| - 1], s[|s| - 1];
      DistinctCount(init, d);
      assert s == init + [last];
      if last == d {
        assert d !in init;
      }
    }
  }

  lemma CountTwice(s: seq<Due>, j: nat, k: nat)
    requires j < k < |s| && s[j] == s[k]
    ensures multiset(s)[s[j]] >= 2
  {
    assert s == s[..k] + s[k..];
    assert s[..k][j] in s[..k] && s[k..][0] in s[k..];
    assert multiset(s) == multiset(s[..k]) + multiset(s[k..]);
  }

  /** The order of the list does not matter. */
  lemma ListsSorted(txs: map<TxId, Tx>, s: seq<Due>, s': seq<Due>)
    requires ListsScheduled(txs, s) && multiset(s) == multiset(s')
    ensures ListsScheduled(txs, s')
  {
    forall d | d in s'
      ensures d in s
    {
      assert d in multiset(s');
    }
    forall d | d in s
      ensures d in s'
    {
      assert d in multiset(s);
    }
    forall j, k | 0 <= j < k < |s'|
      ensures s'[j].id != s'[k].id
    {
      if s'[j].id == s'[k].id {
        assert s'[j] in s && s'[k] in s;
        DistinctCount(s, s'[j]);
        CountTwice(s', j, k);
      }
    }
  }

  /** What a pass may meet: for each scheduled withdrawal an id an insert would draw and
      the node's answer, all of them fresh. */
  ghost predicate PassOffer(w: World, newIds: map<TxId, TxId>, replies: map<TxId, Reply>) {
    && (forall i :: i in w.db.txs && Scheduled(w.db.txs[i].status) ==> i in newIds && i in replies)
    && AllDifferent(newIds, replies)
    && StillFresh(w, newIds, replies, {})
  }

  ghost predicate AllDifferent(newIds: map<TxId, TxId>, replies: map<TxId, Reply>) {
    && (forall i, j :: i in newIds && j in newIds && i != j ==> newIds[i] != newIds[j])
    && forall i, j :: i in replies && j in replies && i != j && replies[i].Accepted? && replies[j].Accepted? ==>
         replies[i].hash != replies[j].hash
  }

  ghost predicate StillFresh(w: World, newIds: map<TxId, TxId>, replies: map<TxId, Reply>, used: set<TxId>) {
    && (forall i :: i in newIds && i !in used ==> FreshId(w, newIds[i]))
    && forall i :: i in replies && i !in used && replies[i].Accepted? ==> FreshHash(w, replies[i].hash)
  }

  // ----------------------------------------------------------------- the sends

  function IdSet(s: seq<Due>): set<TxId> {
    set d | d in s :: d.id
  }

  function Ids(s: seq<Due>): (r: seq<TxId>)
    ensures |r| == |s| && forall k :: 0 <= k < |s| ==> r[k] == s[k].id
  {
    seq(|s|, k requires 0 <= k < |s| => s[k].id)
  }

  /** The withdrawals a run tried to send again, in order. */
  function Resends(trace: seq<Action>): seq<TxId> {
    if trace == [] then []
    else
      var last := trace[|trace| - 1];
      Resends(trace[..|trace| - 1]) + if last.Resend? then [last.id] else []
  }

  lemma {:induction false} ResendsAppend(a: seq<Action>, b: seq<Action>)
    ensures Resends(a + b) == Resends(a) + Resends(b)
  {
    if b == [] {
      assert a + b == a;
    } else {
      assert (a + b)[..|a + b| - 1] == a + b[..|b| - 1];
      ResendsAppend(a, b[..|b| - 1]);
    }
  }

  lemma {:induction false} NoResends(trace: seq<Action>)
    requires forall a :: a in trace ==> !a.Resend?
    ensures Resends(trace) == []
  {
    if trace != [] {
      NoResends(trace[..|trace| - 1]);
    }
  }

  /** All rows but those of the withdrawals in `used` are as they were. */
  ghost predicate Passed(txs: map<TxId, Tx>, txs': map<TxId, Tx>, used: set<TxId>) {
    forall i :: i in txs && i !in used ==> i in txs' && txs'[i] == txs[i]
  }

  /** Sending one withdrawal leaves every other scheduled row untouched and takes no fresh
      id or hash from the others. */
  lemma PassedMore(
    txs: map<TxId, Tx>, w: World, w': World, id: TxId, newIds: map<TxId, TxId>, replies: map<TxId, Reply>, used: set<TxId>)
    requires Passed(txs, w.db.txs, used) && StillFresh(w, newIds, replies, used) && AllDifferent(newIds, replies)
    requires id in newIds && id in replies && id in w.db.txs && id !in used
    requires Touched(w, w', id, newIds[id], HashesOf(replies[id]))
    ensures Passed(txs, w'.db.txs, used + {id}) && StillFresh(w', newIds, replies, used + {id})
  {
    forall i | i in replies && i !in used + {id} && replies[i].Accepted?
      ensures FreshHash(w', replies[i].hash)
    {
      var h := replies[i].hash;
      assert FreshHash(w, h) && h !in HashesOf(replies[id]);
      forall k | 0 <= k < |w'.sent|
        ensures w'.sent[k].hash != h
      {
        if k < |w.sent| {
          assert w'.sent[..|w.sent|][k] == w.sent[k];
        }
      }
    }
  }

  lemma PassStart(cfg: Config, w: World, s: seq<Due>, newIds: map<TxId, TxId>, replies: map<TxId, Reply>)
    requires PassOffer(w, newIds, replies)
    ensures Passed(w.db.txs, w.db.txs, IdSet(s[..0])) && StillFresh(w, newIds, replies, IdSet(s[..0]))
    ensures AllDifferent(newIds, replies)
    ensures Run(cfg, w, []) == w && LegalRun(cfg, w, []) && Resends([]) == Ids(s[..0]) && Total(s[..0]) == 0
  {
    assert IdSet(s[..0]) == {};
  }

  /** The next withdrawal of the list, and what it adds to those sent. */
  lemma NextDue(
    txs: map<TxId, Tx>, s: seq<Due>, n: nat, newIds: map<TxId, TxId>, replies: map<TxId, Reply>, w: World)
    requires ListsScheduled(txs, s) && n < |s| && PassOffer(w, newIds, replies) && w.db.txs == txs
    ensures var id := s[n].id;
      && id in txs && Scheduled(txs[id].status) && id in newIds && id in replies
      && id !in IdSet(s[..n]) && IdSet(s[..n + 1]) == IdSet(s[..n]) + {id}
      && Ids(s[..n + 1]) == Ids(s[..n]) + [id]
  {
    assert s[n] in s;
    assert s[..n + 1] == s[..n] + [s[n]];
  }

  /** Everything sendWithdrawal does to one withdrawal, from its first step to its last. */
  lemma SendTouches(
    cfg: Config, w: World, t: Tx, out: Commit, newId: TxId, reply: Reply, trace: seq<Action>)
    requires Ready(cfg, w, t, newId, reply)
    requires LegalRun(cfg, Dispatch(cfg, w, t, out, newId), trace) && forall a :: a in trace ==> SendStep(a, reply)
    ensures Touched(w, Run(cfg, Dispatch(cfg, w, t, out, newId), trace), t.id, newId, HashesOf(reply))
  {
    hide Inv, UnsentRecord, Dispatch, Touched, Run, LegalRun, BusyWith, FreshHash, FreshId;
    var w1 := Dispatch(cfg, w, t, out, newId);
    DispatchTouches(cfg, w, t, out, newId, HashesOf(reply));
    DispatchIs(cfg, w, t, out, newId, reply);
    TouchedOutgoing(w, w1, t.id, newId, HashesOf(reply));
    SendRunTouches(cfg, w1, trace, t.id, newId, reply);
    TouchedTrans(w, w1, Run(cfg, w1, trace), t.id, newId, HashesOf(reply));
  }

  /** The next withdrawal of a pass may be sent. */
  lemma ResendOffer(cfg: Config, txs: map<TxId, Tx>, w: World, id: TxId,
                    newIds: map<TxId, TxId>, replies: map<TxId, Reply>, used: set<TxId>)
    requires Inv(cfg, w) && w.proc.Idle? && id in txs && Scheduled(txs[id].status) && id !in used
    requires Passed(txs, w.db.txs, used) && StillFresh(w, newIds, replies, used) && id in newIds && id in replies
    ensures id in w.db.txs && w.db.txs[id] == txs[id] && txs[id].id == id
    ensures Ready(cfg, w, txs[id], newIds[id], replies[id])
  {
    hide StillFresh, DbOk, HoldOk, ChainOk, SentOk;
    ResendReady(cfg, w, id);
    StoredIsUnsent(cfg, w, id);
    FreshOf(w, newIds, replies, used, id);
  }

  lemma FreshOf(w: World, newIds: map<TxId, TxId>, replies: map<TxId, Reply>, used: set<TxId>, id: TxId)
    requires StillFresh(w, newIds, replies, used) && id !in used && id in newIds && id in replies
    ensures FreshId(w, newIds[id]) && (replies[id].Accepted? ==> FreshHash(w, replies[id].hash))
  {
  }

  /** Sending a scheduled withdrawal again and the steps that follow are one run. */
  lemma ResendRun(cfg: Config, w: World, id: TxId, out: Commit, newId: TxId, reply: Reply, trace: seq<Action>)
    requires id in w.db.txs && Scheduled(w.db.txs[id].status) && w.db.txs[id].id == id
    requires Ready(cfg, w, w.db.txs[id], newId, reply)
    requires LegalRun(cfg, Dispatch(cfg, w, w.db.txs[id], out, newId), trace)
    requires forall a :: a in trace ==> SendStep(a, reply)
    ensures var steps := [Resend(id, out, newId)] + trace;
      && LegalRun(cfg, w, steps)
      && Run(cfg, w, steps) == Run(cfg, Dispatch(cfg, w, w.db.txs[id], out, newId), trace)
      && Resends(steps) == [id]
      && Touched(w, Run(cfg, w, steps), id, newId, HashesOf(reply))
  {
    hide Inv, Run, LegalRun, Dispatch, UnsentRecord, Touched, FreshHash;
    var a := Resend(id, out, newId);
    assert Legal(cfg, w, a) && Next(cfg, w, a) == Dispatch(cfg, w, w.db.txs[id], out, newId);
    RunOne(cfg, w, a);
    RunAppend(cfg, w, [a], trace);
    SendTouches(cfg, w, w.db.txs[id], out, newId, reply, trace);
    NoResends(trace);
    ResendsAppend([a], trace);
    assert [a][..0] == [] && Resends([a]) == [id];
  }

  /** How far a pass has come: the first n withdrawals of the list were sent. */
  ghost predicate SentSoFar(cfg: Config, w: World, cur: World, s: seq<Due>, n: nat,
                            newIds: map<TxId, TxId>, replies: map<TxId, Reply>, trace: seq<Action>)
    requires n <= |s|
  {
    && LegalRun(cfg, w, trace) && Run(cfg, w, trace) == cur && Inv(cfg, cur) && cur.proc.Idle?
    && Passed(w.db.txs, cur.db.txs, IdSet(s[..n])) && StillFresh(cur, newIds, replies, IdSet(s[..n]))
    && Resends(trace) == Ids(s[..n])
  }

  lemma SentNone(cfg: Config, w: World, s: seq<Due>, newIds: map<TxId, TxId>, replies: map<TxId, Reply>)
    requires Inv(cfg, w) && w.proc.Idle? && PassOffer(w, newIds, replies)
    ensures SentSoFar(cfg, w, w, s, 0, newIds, replies, [])
  {
    PassStart(cfg, w, s, newIds, replies);
  }

  /** The next withdrawal may be sent. */
  lemma SendNext(cfg: Config, w: World, cur: World, s: seq<Due>, n: nat,
                 newIds: map<TxId, TxId>, replies: map<TxId, Reply>, trace: seq<Action>)
    requires ListsScheduled(w.db.txs, s) && PassOffer(w, newIds, replies) && n < |s|
    requires SentSoFar(cfg, w, cur, s, n, newIds, replies, trace)
    ensures var id := s[n].id;
      && id in w.db.txs && id in newIds && id in replies && id in cur.db.txs && cur.db.txs[id] == w.db.txs[id]
      && w.db.txs[id].id == id && Scheduled(w.db.txs[id].status)
      && Ready(cfg, cur, w.db.txs[id], newIds[id], replies[id])
  {
    hide Inv, ListsScheduled, PassOffer, Passed, StillFresh, Run, LegalRun, Resends, IdSet, Ready;
    NextDue(w.db.txs, s, n, newIds, replies, w);
    ResendOffer(cfg, w.db.txs, cur, s[n].id, newIds, replies, IdSet(s[..n]));
  }

  /** It was sent; if that ended idle, the pass has come one further. */
  lemma SentOneMore(cfg: Config, w: World, cur: World, next: World, s: seq<Due>, n: nat,
                    newIds: map<TxId, TxId>, replies: map<TxId, Reply>, trace: seq<Action>, steps: seq<Action>)
    requires ListsScheduled(w.db.txs, s) && PassOffer(w, newIds, replies) && n < |s|
    requires SentSoFar(cfg, w, cur, s, n, newIds, replies, trace)
    requires s[n].id in newIds && s[n].id in replies && s[n].id in cur.db.txs
    requires LegalRun(cfg, cur, steps) && Run(cfg, cur, steps) == next && Inv(cfg, next) && Resends(steps) == [s[n].id]
    requires Touched(cur, next, s[n].id, newIds[s[n].id], HashesOf(replies[s[n].id]))
    ensures LegalRun(cfg, w, trace + steps) && Run(cfg, w, trace + steps) == next
    ensures Tried(s, n + 1, trace + steps)
    ensures next.proc.Idle? ==> SentSoFar(cfg, w, next, s, n + 1, newIds, replies, trace + steps)
  {
    PassStart(cfg, w, s, newIds, replies);
    hide Inv, ListsScheduled, PassOffer, Passed, StillFresh, AllDifferent, Run, LegalRun, Resends, IdSet, Touched;
    NextDue(w.db.txs, s, n, newIds, replies, w);
    RunAppend(cfg, w, trace, steps);
    ResendsAppend(trace, steps);
    PassedMore(w.db.txs, cur, next, s[n].id, newIds, replies, IdSet(s[..n]));
  }

  /** What is left of a budget after the first n withdrawals. */
  function Left(s: seq<Due>, budget: int, n: nat): int
    requires n <= |s|
  {
    budget - Total(s[..n])
  }

  /** Exactly the first n withdrawals were tried, in order. */
  ghost predicate Tried(s: seq<Due>, n: nat, trace: seq<Action>) {
    n <= |s| && Resends(trace) == Ids(s[..n])
  }

  /** All rows but those of the first n withdrawals are as they were. */
  ghost predicate OthersKept(txs: map<TxId, Tx>, txs': map<TxId, Tx>, s: seq<Due>, n: nat) {
    n <= |s| && Passed(txs, txs', IdSet(s[..n]))
  }

  lemma KeptIs(txs: map<TxId, Tx>, txs': map<TxId, Tx>, s: seq<Due>, n: nat)
    requires OthersKept(txs, txs', s, n)
    ensures n <= |s| && Passed(txs, txs', IdSet(s[..n]))
  {
  }

  lemma TriedNone(s: seq<Due>)
    ensures Tried(s, 0, [])
  {
  }

  lemma TriedSize(s: seq<Due>, n: nat, trace: seq<Action>, trace': seq<Action>)
    requires Tried(s, n, trace) && Resends(trace') == Resends(trace)
    ensures |Resends(trace)| == n <= |s| && Tried(s, n, trace')
  {
  }

  lemma TriedAll(s: seq<Due>, plan: Plan, n: nat, trace: seq<Action>)
    requires Tried(s, n, trace) && n <= |s| && plan.attempted == s[..n]
    ensures Resends(trace) == Ids(plan.attempted)
  {
  }

  /** Whether the next withdrawal fits. */
  lemma LeftNext(s: seq<Due>, budget: int, n: nat)
    requires n < |s| && Left(s, budget, n) >= 0 && Total(s) < INT64_LIMIT && budget < INT64_LIMIT
    ensures s[n].amount < INT64_LIMIT
    ensures Left(s, budget, n + 1) == Left(s, budget, n) - s[n].amount
    ensures Left(s, budget, n + 1) >= 0 ==> n < Taken(s, budget)
  {
    TotalTake(s, n);
    hide Total, Taken;
    if Left(s, budget, n + 1) >= 0 {
      PassReached(s, budget, n);
    }
  }

  /** Nothing wraps around below zero either. */
  lemma LeftBounds(s: seq<Due>, budget: int, n: nat)
    requires n < |s| && 0 <= budget < INT64_LIMIT && Total(s) < INT64_LIMIT
    ensures s[n].amount < INT64_LIMIT
    ensures Left(s, budget, n + 1) == Left(s, budget, n) - s[n].amount
    ensures -INT64_LIMIT < Left(s, budget, n + 1) <= Left(s, budget, n) < INT64_LIMIT
  {
    TotalTake(s, n);
    hide Total;
  }

  lemma LeftAll(s: seq<Due>, budget: int)
    ensures Left(s, budget, |s|) == budget - Total(s)
  {
    assert s[..|s|] == s;
  }

  lemma LeftMore(s: seq<Due>, budget: int, more: int, n: nat)
    requires n <= |s|
    ensures Left(s, budget + more, n) == Left(s, budget, n) + more
  {
  }

  lemma LeftNothing(s: seq<Due>, budget: int)
    ensures Left(s, budget, 0) == budget
  {
    assert s[..0] == [] && Total([]) == 0;
  }

  /** The loop has stopped where a pass does. */
  lemma LeftEnd(s: seq<Due>, budget: int, n: nat)
    requires n <= |s| && Left(s, budget, n) >= 0 && (n == |s| || Left(s, budget, n + 1) < 0)
    ensures n == Taken(s, budget)
  {
    if n < |s| {
      TotalTake(s, n);
    }
    hide Total, Taken;
    TakenIs(s, budget, n);
  }

  lemma SentFacts(cfg: Config, w: World, cur: World, s: seq<Due>, n: nat,
                  newIds: map<TxId, TxId>, replies: map<TxId, Reply>, trace: seq<Action>)
    requires n <= |s| && SentSoFar(cfg, w, cur, s, n, newIds, replies, trace)
    ensures LegalRun(cfg, w, trace) && Run(cfg, w, trace) == cur && Inv(cfg, cur)
    ensures OthersKept(w.db.txs, cur.db.txs, s, n) && Tried(s, n, trace)
  {
  }

  // ----------------------------------------------------------------- the marks

  function Marks(s: seq<Due>, status: Status): (r: seq<Mark>)
    ensures |r| == |s| && forall k :: 0 <= k < |s| ==> r[k] == Mark(s[k].id, status)
  {
    seq(|s|, k requires 0 <= k < |s| => Mark(s[k].id, status))
  }

  /** The status updates at the end of a pass, in the order they are made. */
  function MarksOf(plan: Plan): seq<Mark>
  {
    Marks(plan.pending, Status.Pending) + Marks(plan.cold, PendingColdStorage)
  }

  ghost predicate Markable(txs: map<TxId, Tx>, marks: seq<Mark>) {
    && (forall k :: 0 <= k < |marks| ==>
          marks[k].id in txs && Scheduled(txs[marks[k].id].status) && Scheduled(marks[k].status))
    && forall j, k :: 0 <= j < k < |marks| ==> marks[j].id != marks[k].id
  }

  /** The marked rows differ in their status only, and nothing else in the table changed. */
  ghost predicate Marked(txs: map<TxId, Tx>, txs': map<TxId, Tx>, marks: seq<Mark>) {
    && txs'.Keys == txs.Keys
    && (forall k :: 0 <= k < |marks| && marks[k].id in txs ==>
          txs'[marks[k].id] == txs[marks[k].id].(status := marks[k].status))
    && forall i :: i in txs && (forall k :: 0 <= k < |marks| ==> marks[k].id != i) ==> txs'[i] == txs[i]
  }

  lemma {:induction false} MarkAllExact(cfg: Config, db: Db, past: Past, marks: seq<Mark>)
    requires DbOk(cfg, db, past) && Markable(db.txs, marks)
    ensures MarkAll(db, marks).Stored? && Marked(db.txs, MarkAll(db, marks).db.txs, marks)
  {
    hide DbOk, Frame, UpdatePendingTxStatus, Scheduled, Marked, Markable, MarkAll;
    if marks == [] {
      MarkNone(db);
    } else {
      var init, m := marks[..|marks| - 1], marks[|marks| - 1];
      assert marks == init + [m];
      MarkableInit(db.txs, init, m);
      MarkAllExact(cfg, db, past, init);
      MarkAllKeeps(cfg, db, past, init);
      var r := MarkAll(db, init);
      UnmarkedYet(db.txs, r.db.txs, init, m);
      MarkOneExact(cfg, r.db, past, m);
      MarkOneMore(db, init, m);
      MarkedSnoc(db.txs, r.db.txs, init, m);
    }
  }

  lemma MarkNone(db: Db)
    ensures MarkAll(db, []).Stored? && Marked(db.txs, MarkAll(db, []).db.txs, [])
  {
  }

  lemma MarkableInit(txs: map<TxId, Tx>, init: seq<Mark>, m: Mark)
    requires Markable(txs, init + [m])
    ensures Markable(txs, init)
  {
    assert forall k :: 0 <= k < |init| ==> (init + [m])[k] == init[k];
  }

  lemma MarkOneMore(db: Db, init: seq<Mark>, m: Mark)
    requires var r := MarkAll(db, init);
      r.Stored? && m.id in r.db.txs && Scheduled(r.db.txs[m.id].status) && Scheduled(m.status)
    ensures var r := MarkAll(db, init);
      MarkAll(db, init + [m]) == UpdatePendingTxStatus(r.db, r.db.txs[m.id], m.status)
  {
    hide UpdatePendingTxStatus;
    assert (init + [m])[..|init|] == init;
  }

  lemma UnmarkedYet(txs: map<TxId, Tx>, mid: map<TxId, Tx>, init: seq<Mark>, m: Mark)
    requires Marked(txs, mid, init) && Markable(txs, init + [m])
    ensures m.id in txs && m.id in mid && mid[m.id] == txs[m.id] && Scheduled(txs[m.id].status) && Scheduled(m.status)
  {
    var marks := init + [m];
    assert marks[|init|] == m;
    assert forall k :: 0 <= k < |init| ==> marks[k] == init[k];
  }

  lemma MarkOneExact(cfg: Config, db: Db, past: Past, m: Mark)
    requires DbOk(cfg, db, past) && m.id in db.txs && Scheduled(db.txs[m.id].status) && Scheduled(m.status)
    ensures var r := UpdatePendingTxStatus(db, db.txs[m.id], m.status);
      r.Stored? && r.db.txs == db.txs[m.id := db.txs[m.id].(status := m.status)]
  {
    assert RowOk(cfg, m.id, db.txs[m.id]);
    PendingStatusKeeps(cfg, db, past, db.txs[m.id], m.status);
  }

  lemma MarkedSnoc(txs: map<TxId, Tx>, mid: map<TxId, Tx>, init: seq<Mark>, m: Mark)
    requires Marked(txs, mid, init) && Markable(txs, init + [m]) && m.id in txs
    ensures Marked(txs, mid[m.id := txs[m.id].(status := m.status)], init + [m])
  {
    var marks := init + [m];
    assert marks[|init|] == m;
    assert forall k :: 0 <= k < |init| ==> marks[k] == init[k];
  }

  /** What was not sent is still waiting in the table. */
  ghost predicate StillWaiting(txs: map<TxId, Tx>, plan: Plan)
  {
    forall d :: d in plan.pending + plan.cold ==> d.id in txs && Scheduled(txs[d.id].status)
  }

  lemma PlanParts(s: seq<Due>, confirmed: nat, unconfirmed: nat)
    ensures var plan := PlanFor(s, confirmed, unconfirmed); s == plan.attempted + plan.pending + plan.cold
  {
    hide Total, Taken;
    TakenMonotone(s, confirmed, confirmed + unconfirmed);
    var k, m := Taken(s, confirmed), Taken(s, confirmed + unconfirmed);
    assert s == s[..k] + s[k..m] + s[m..];
  }

  /** What a completed series of sends leaves behind is still scheduled. */
  lemma MarksAreMarkable(txs: map<TxId, Tx>, s: seq<Due>, plan: Plan)
    requires s == plan.attempted + plan.pending + plan.cold
    requires DistinctIds(s) && StillWaiting(txs, plan)
    ensures Markable(txs, MarksOf(plan))
  {
    var marks, a, p := MarksOf(plan), |plan.attempted|, |plan.pending|;
    forall k | 0 <= k < |marks|
      ensures marks[k].id == s[a + k].id && s[a + k] in plan.pending + plan.cold && Scheduled(marks[k].status)
    {
      assert s[a + k] == (plan.pending + plan.cold)[k];
    }
  }

  lemma MarkIs(cfg: Config, w: World, marks: seq<Mark>, need: nat, out: Commit)
    requires w.proc.Idle? && MarkAll(w.db, marks).Stored?
    ensures Next(cfg, w, MarkPending(marks, need, out))
         == if out.Dropped? then w else w.(db := MarkAll(w.db, marks).db.(coldNeed := need))
  {
    hide MarkAll;
  }

  lemma MarkIsLegal(cfg: Config, w: World, marks: seq<Mark>, need: nat, out: Commit)
    ensures Legal(cfg, w, MarkPending(marks, need, out))
  {
  }

  /** The n-th mark finds its row as it was before the first. */
  lemma MarkAt(cfg: Config, db: Db, past: Past, marks: seq<Mark>, n: nat)
    requires DbOk(cfg, db, past) && Markable(db.txs, marks) && n < |marks|
    ensures var r, m := MarkAll(db, marks[..n]), marks[n];
      && r.Stored? && m.id in db.txs && m.id in r.db.txs && r.db.txs[m.id] == db.txs[m.id]
      && db.txs[m.id].hash == ""
      && UpdatePendingTxStatus(r.db, db.txs[m.id], m.status).Stored?
      && MarkAll(db, marks[..n + 1]) == UpdatePendingTxStatus(r.db, db.txs[m.id], m.status)
  {
    hide DbOk, Frame, UpdatePendingTxStatus, Scheduled, Marked, MarkAll;
    var init, m := marks[..n], marks[n];
    assert marks[..n + 1] == init + [m];
    MarkablePrefix(db.txs, marks, n + 1);
    MarkableInit(db.txs, init, m);
    hide Markable;
    MarkAllExact(cfg, db, past, init);
    MarkAllKeeps(cfg, db, past, init);
    UnmarkedYet(db.txs, MarkAll(db, init).db.txs, init, m);
    MarkOneExact(cfg, MarkAll(db, init).db, past, m);
    MarkOneMore(db, init, m);
    WaitingHasNoHash(cfg, db, past, m.id);
  }

  lemma MarkablePrefix(txs: map<TxId, Tx>, marks: seq<Mark>, n: nat)
    requires Markable(txs, marks) && n <= |marks|
    ensures Markable(txs, marks[..n])
  {
  }

  lemma WaitingHasNoHash(cfg: Config, db: Db, past: Past, id: TxId)
    requires DbOk(cfg, db, past) && id in db.txs && Scheduled(db.txs[id].status)
    ensures db.txs[id].hash == ""
  {
    assert RowOk(cfg, id, db.txs[id]);
  }

  /** The rows a pass has not sent are still waiting. */
  lemma StillWaitingAfter(txs: map<TxId, Tx>, txs': map<TxId, Tx>, s: seq<Due>, plan: Plan)
    requires ListsScheduled(txs, s) && s == plan.attempted + plan.pending + plan.cold
    requires Passed(txs, txs', IdSet(plan.attempted))
    ensures forall d :: d in plan.pending + plan.cold ==> d.id in txs && d.id in txs' && txs'[d.id] == txs[d.id]
    ensures StillWaiting(txs', plan)
  {
    var rest := plan.pending + plan.cold;
    assert s == plan.attempted + rest;
    forall d | d in rest
      ensures d in s && d.id !in IdSet(plan.attempted)
    {
      var k :| 0 <= k < |rest| && rest[k] == d;
      assert s[|plan.attempted| + k] == d;
      forall a | a in plan.attempted
        ensures a.id != d.id
      {
        var j :| 0 <= j < |plan.attempted| && plan.attempted[j] == a;
        assert s[j] == a;
      }
    }
  }

  /** What a completed pass leaves, compared with the rows it read. */
  ghost predicate PassStored(txs: map<TxId, Tx>, txs': map<TxId, Tx>, plan: Plan)
  {
    && (forall d :: d in plan.pending ==>
          d.id in txs && d.id in txs' && txs'[d.id] == txs[d.id].(status := Status.Pending))
    && (forall d :: d in plan.cold ==>
          d.id in txs && d.id in txs' && txs'[d.id] == txs[d.id].(status := PendingColdStorage))
    && forall i :: i in txs && !Scheduled(txs[i].status) ==> i in txs' && txs'[i] == txs[i]
  }

  lemma MarkedIsStored(txs: map<TxId, Tx>, mid: map<TxId, Tx>, txs': map<TxId, Tx>, s: seq<Due>, plan: Plan)
    requires ListsScheduled(txs, s) && s == plan.attempted + plan.pending + plan.cold
    requires Passed(txs, mid, IdSet(plan.attempted)) && Marked(mid, txs', MarksOf(plan))
    ensures PassStored(txs, txs', plan)
  {
    hide MarksOf;
    StillWaitingAfter(txs, mid, s, plan);
    hide StillWaiting;
    forall d | d in plan.pending
      ensures d.id in txs' && txs'[d.id] == txs[d.id].(status := Status.Pending)
    {
      assert d in plan.pending + plan.cold;
      MarkOf(plan, d);
    }
    forall d | d in plan.cold
      ensures d.id in txs' && txs'[d.id] == txs[d.id].(status := PendingColdStorage)
    {
      assert d in plan.pending + plan.cold;
      MarkOf(plan, d);
    }
    forall i | i in txs && !Scheduled(txs[i].status)
      ensures i in txs' && txs'[i] == txs[i]
    {
      UnmarkedRow(txs, s, plan, i);
    }
  }

  lemma MarkOf(plan: Plan, d: Due)
    ensures d in plan.pending ==>
              exists k :: 0 <= k < |MarksOf(plan)| && MarksOf(plan)[k] == Mark(d.id, Status.Pending)
    ensures d in plan.cold ==>
              exists k :: 0 <= k < |MarksOf(plan)| && MarksOf(plan)[k] == Mark(d.id, PendingColdStorage)
  {
    var p := |plan.pending|;
    if d in plan.pending {
      var k :| 0 <= k < p && plan.pending[k] == d;
      assert MarksOf(plan)[k] == Mark(d.id, Status.Pending);
    }
    if d in plan.cold {
      var k :| 0 <= k < |plan.cold| && plan.cold[k] == d;
      assert MarksOf(plan)[p + k] == Mark(d.id, PendingColdStorage);
    }
  }

  lemma UnmarkedRow(txs: map<TxId, Tx>, s: seq<Due>, plan: Plan, i: TxId)
    requires ListsScheduled(txs, s) && s == plan.attempted + plan.pending + plan.cold
    requires i in txs && !Scheduled(txs[i].status)
    ensures i !in IdSet(plan.attempted)
    ensures forall k :: 0 <= k < |MarksOf(plan)| ==> MarksOf(plan)[k].id != i
  {
    var a, p, marks := |plan.attempted|, |plan.pending|, MarksOf(plan);
    assert forall d :: d in s ==> d.id != i;
    forall d | d in plan.attempted
      ensures d in s
    {
      var j :| 0 <= j < a && plan.attempted[j] == d;
      assert s[j] == d;
    }
    hide ListsScheduled, Scheduled;
    forall k | 0 <= k < |marks|
      ensures marks[k].id != i
    {
      assert s[a + k] in s;
      assert s[a + k] == if k < p then plan.pending[k] else plan.cold[k - p];
    }
  }

  /** A pass stores exactly the plan.  It read the scheduled rows `s` of the table txs;
      every affordable send has been made, which touched those withdrawals only; the pass
      then commits.  The withdrawals the unconfirmed balance covers are pending, the others
      wait for cold storage, no row that was not scheduled changes, and the stored
      requirement is what the scheduled rows exceed both balances by. */
  lemma PassStoresThePlan(cfg: Config, txs: map<TxId, Tx>, w: World, s: seq<Due>, confirmed: nat, unconfirmed: nat)
    requires Inv(cfg, w) && w.proc.Idle?
    requires ListsScheduled(txs, s) && OthersKept(txs, w.db.txs, s, Taken(s, confirmed))
    ensures var plan := PlanFor(s, confirmed, unconfirmed);
      var w' := Next(cfg, w, MarkPending(MarksOf(plan), plan.need, Committed));
      && PassStored(txs, w'.db.txs, plan)
      && w'.db.coldNeed == Max(0, ScheduledTotal(txs) - confirmed - unconfirmed)
      && Inv(cfg, w')
  {
    hide Total, Taken, ScheduledTotal, Inv, Markable, Marked, MarksOf, Next, ListsScheduled, StillWaiting, Passed, IdSet,
      PassStored, OthersKept, DbOk, MarkAll;
    ListedIsTotal(txs, s);
    var plan := PlanFor(s, confirmed, unconfirmed);
    KeptIs(txs, w.db.txs, s, Taken(s, confirmed));
    PlanParts(s, confirmed, unconfirmed);
    StillWaitingAfter(txs, w.db.txs, s, plan);
    ListedIds(txs, s);
    MarksAreMarkable(w.db.txs, s, plan);
    InvDb(cfg, w);
    MarkAllExact(cfg, w.db, w.past, MarksOf(plan));
    MarkIs(cfg, w, MarksOf(plan), plan.need, Committed);
    MarkIsLegal(cfg, w, MarksOf(plan), plan.need, Committed);
    StepKeeps(cfg, w, MarkPending(MarksOf(plan), plan.need, Committed));
    MarkedIsStored(txs, w.db.txs, MarkAll(w.db, MarksOf(plan)).db.txs, s, plan);
  }

  lemma ListedIds(txs: map<TxId, Tx>, s: seq<Due>)
    requires ListsScheduled(txs, s)
    ensures DistinctIds(s)
  {
  }

  lemma MarkStart(cfg: Config, w: World, plan: Plan)
    requires Inv(cfg, w) && Markable(w.db.txs, MarksOf(plan))
    ensures DbOk(cfg, w.db, w.past) && MarkAll(w.db, MarksOf(plan)).Stored?
  {
    InvDb(cfg, w);
    hide Inv, DbOk, Markable, Marked;
    MarkAllExact(cfg, w.db, w.past, MarksOf(plan));
  }

  /** From position k on, `marks` keeps p withdrawals of the sorted list pending, which is
      as many as the budget covers, and lets the others wait for cold storage. */
  ghost predicate Splits(s: seq<Due>, budget: int, k: nat, p: nat, marks: seq<Mark>) {
    && k + p == Taken(s, budget) && |marks| == |s| - k
    && (forall j :: 0 <= j < p ==> marks[j] == Mark(s[k + j].id, Status.Pending))
    && forall j :: p <= j < |marks| ==> marks[j] == Mark(s[k + j].id, PendingColdStorage)
  }

  lemma MarksAre(s: seq<Due>, confirmed: nat, unconfirmed: nat)
    ensures var plan := PlanFor(s, confirmed, unconfirmed);
      && Splits(s, confirmed + unconfirmed, Taken(s, confirmed), |plan.pending|, MarksOf(plan))
      && plan.need == Max(0, Total(s) - confirmed - unconfirmed)
  {
    hide Total, Taken;
    TakenMonotone(s, confirmed, confirmed + unconfirmed);
    var k, m := Taken(s, confirmed), Taken(s, confirmed + unconfirmed);
    assert forall j :: 0 <= j < m - k ==> s[k..m][j] == s[k + j];
    assert forall j :: 0 <= j < |s| - m ==> s[m..][j] == s[m + j];
  }

  lemma SplitAt(s: seq<Due>, budget: int, k: nat, p: nat, marks: seq<Mark>, j: nat)
    requires Splits(s, budget, k, p, marks) && k + j < |s|
    ensures j < |marks| && marks[j] == Mark(s[k + j].id, if j < p then Status.Pending else PendingColdStorage)
  {
  }

  lemma SplitSize(s: seq<Due>, budget: int, k: nat, p: nat, marks: seq<Mark>)
    requires Splits(s, budget, k, p, marks)
    ensures k + p == Taken(s, budget) && |marks| == |s| - k
  {
  }

  /** How far the marks of a pass have been stored. */
  ghost predicate MarkedUpTo(from: Db, marks: seq<Mark>, n: nat, db: Db) {
    n <= |marks| && MarkAll(from, marks[..n]).Stored? && MarkAll(from, marks[..n]).db == db
  }

  lemma MarkedNone(from: Db, marks: seq<Mark>)
    ensures MarkedUpTo(from, marks, 0, from)
  {
    assert marks[..0] == [];
  }

  lemma MarkedAll(from: Db, marks: seq<Mark>, db: Db)
    requires MarkedUpTo(from, marks, |marks|, db)
    ensures MarkAll(from, marks).Stored? && MarkAll(from, marks).db == db
  {
    assert marks[..|marks|] == marks;
  }

  /** The next mark can be stored, and then one more is. */
  lemma MarkNext(cfg: Config, from: Db, past: Past, marks: seq<Mark>, n: nat, db: Db)
    requires DbOk(cfg, from, past) && Markable(from.txs, marks) && n < |marks| && MarkedUpTo(from, marks, n, db)
    ensures marks[n].id in db.txs && db.txs[marks[n].id].hash == ""
    ensures var r := UpdatePendingTxStatus(db, db.txs[marks[n].id], marks[n].status);
      r.Stored? && MarkedUpTo(from, marks, n + 1, r.db)
  {
    hide DbOk, Markable, MarkAll, UpdatePendingTxStatus;
    MarkAt(cfg, from, past, marks, n);
  }

  lemma MarkPlanIs(cfg: Config, w: World, plan: Plan, out: Commit)
    requires Inv(cfg, w) && w.proc.Idle? && MarkAll(w.db, MarksOf(plan)).Stored?
    ensures var w' := Next(cfg, w, MarkPending(MarksOf(plan), plan.need, out));
      && w' == (if out.Dropped? then w else w.(db := MarkAll(w.db, MarksOf(plan)).db.(coldNeed := plan.need)))
      && Inv(cfg, w')
  {
    hide Inv, MarkAll, MarksOf;
    MarkIs(cfg, w, MarksOf(plan), plan.need, out);
    MarkIsLegal(cfg, w, MarksOf(plan), plan.need, out);
    StepKeeps(cfg, w, MarkPending(MarksOf(plan), plan.need, out));
  }

  /** After the sends the rest of the list can be marked. */
  lemma PassEnds(cfg: Config, txs: map<TxId, Tx>, w: World, s: seq<Due>, confirmed: nat, unconfirmed: nat)
    requires ListsScheduled(txs, s) && OthersKept(txs, w.db.txs, s, Taken(s, confirmed))
    ensures Markable(w.db.txs, MarksOf(PlanFor(s, confirmed, unconfirmed)))
    ensures PlanFor(s, confirmed, unconfirmed).attempted == s[..Taken(s, confirmed)]
  {
    hide Total, Taken, Markable, MarksOf, ListsScheduled, StillWaiting, Passed, IdSet, OthersKept;
    KeptIs(txs, w.db.txs, s, Taken(s, confirmed));
    PlanParts(s, confirmed, unconfirmed);
    StillWaitingAfter(txs, w.db.txs, s, PlanFor(s, confirmed, unconfirmed));
    ListedIds(txs, s);
    MarksAreMarkable(w.db.txs, s, PlanFor(s, confirmed, unconfirmed));
  }

  /** Cancelling a withdrawal leaves what a pass may meet as it was. */
  lemma CancelOffer(
    cfg: Config, w: World, id: TxId, out: Commit, newIds: map<TxId, TxId>, replies: map<TxId, Reply>)
    requires Inv(cfg, w) && w.proc.Idle? && PassOffer(w, newIds, replies)
    requires Cancellable(w.db.txs, id) && !out.Dropped?
    ensures PassOffer(Next(cfg, w, Cancel(id, out)), newIds, replies)
    ensures ScheduledTotal(Next(cfg, w, Cancel(id, out)).db.txs) <= ScheduledTotal(w.db.txs)
  {
    CancelStart(cfg, w, id);
    CancelIs(cfg, w, id, out);
    hide Inv, Next, UpdatePendingTxStatus, PassOffer, ScheduledTotal;
    CancelledOffer(w, Next(cfg, w, Cancel(id, out)), id, newIds, replies);
    CancelTotal(w.db.txs, id);
  }

  lemma CancelledOffer(w: World, w': World, id: TxId, newIds: map<TxId, TxId>, replies: map<TxId, Reply>)
    requires PassOffer(w, newIds, replies) && id in w.db.txs
    requires w'.db.txs == w.db.txs[id := w.db.txs[id].(status := Cancelled)] && w'.sent == w.sent
    ensures PassOffer(w', newIds, replies)
  {
    hide AllDifferent;
  }

  lemma CancelTotal(txs: map<TxId, Tx>, id: TxId)
    requires id in txs
    ensures ScheduledTotal(txs[id := txs[id].(status := Cancelled)]) <= ScheduledTotal(txs)
  {
    var txs' := txs[id := txs[id].(status := Cancelled)];
    assert ScheduledIds(txs') == ScheduledIds(txs) - {id};
    SameAmount(txs, txs', ScheduledIds(txs'));
    if id in ScheduledIds(txs) {
      AmountWithout(txs, ScheduledIds(txs), id);
    } else {
      assert ScheduledIds(txs') == ScheduledIds(txs);
    }
  }

  lemma {:induction false} SameAmount(txs: map<TxId, Tx>, txs': map<TxId, Tx>, ids: set<TxId>)
    requires ids <= txs.Keys && ids <= txs'.Keys && forall i :: i in ids ==> txs[i].amount == txs'[i].amount
    ensures AmountOf(txs, ids) == AmountOf(txs', ids)
  {
    if ids != {} {
      var i :| i in ids;
      SameAmount(txs, txs', ids - {i});
      AmountWithout(txs, ids, i);
      AmountWithout(txs', ids, i);
    }
  }

  /** The cancel step and the pass that follows are one run. */
  lemma CancelRun(cfg: Config, w: World, id: TxId, out: Commit, trace: seq<Action>)
    requires LegalRun(cfg, Next(cfg, w, Cancel(id, out)), trace)
    ensures var steps := [Cancel(id, out)] + trace;
      LegalRun(cfg, w, steps) && Run(cfg, w, steps) == Run(cfg, Next(cfg, w, Cancel(id, out)), trace)
  {
    hide Run, LegalRun, Next;
    RunOne(cfg, w, Cancel(id, out));
    assert Legal(cfg, w, Cancel(id, out));
    RunAppend(cfg, w, [Cancel(id, out)], trace);
  }

  lemma AttemptedIs(s: seq<Due>, confirmed: nat, unconfirmed: nat)
    ensures var plan := PlanFor(s, confirmed, unconfirmed); plan.attempted == s[..Taken(s, confirmed)]
  {
    hide Total, Taken;
  }

  /** The sends and the final step are one run. */
  lemma PassRun(cfg: Config, w: World, mid: World, s: seq<Due>, plan: Plan, out: Commit, trace: seq<Action>)
    requires LegalRun(cfg, w, trace) && Run(cfg, w, trace) == mid
    ensures var last := MarkPending(MarksOf(plan), plan.need, out);
      && LegalRun(cfg, w, trace + [last])
      && Run(cfg, w, trace + [last]) == Next(cfg, mid, last)
      && Resends(trace + [last]) == Resends(trace)
  {
    hide Run, LegalRun, Next, Legal;
    var last := MarkPending(MarksOf(plan), plan.need, out);
    RunSnoc(cfg, w, trace, last);
    MarkIsLegal(cfg, mid, MarksOf(plan), plan.need, out);
    ResendsAppend(trace, [last]);
    assert [last][..0] == [] && Resends([last]) == [];
  }

  /** A completed pass: exactly the affordable withdrawals were sent, in order, then the
      plan was stored, as the rows and the missing amount say. */
  ghost predicate PassDone(
    txs: map<TxId, Tx>, db: Db, s: seq<Due>, confirmed: nat, unconfirmed: nat, trace: seq<Action>)
  {
    var plan := PlanFor(s, confirmed, unconfirmed);
    && Resends(trace) == Ids(plan.attempted)
    && trace != [] && trace[|trace| - 1] == MarkPending(MarksOf(plan), plan.need, Committed)
    && PassStored(txs, db.txs, plan)
    && db.coldNeed == Max(0, ScheduledTotal(txs) - confirmed - unconfirmed)
  }

  lemma PassIsDone(
    txs: map<TxId, Tx>, db: Db, s: seq<Due>, confirmed: nat, unconfirmed: nat, trace: seq<Action>)
    requires var plan := PlanFor(s, confirmed, unconfirmed);
      && Resends(trace) == Ids(plan.attempted)
      && trace != [] && trace[|trace| - 1] == MarkPending(MarksOf(plan), plan.need, Committed)
      && PassStored(txs, db.txs, plan)
      && db.coldNeed == Max(0, ScheduledTotal(txs) - confirmed - unconfirmed)
    ensures PassDone(txs, db, s, confirmed, unconfirmed, trace)
  {
  }
}
