/** The HTTP callback sender as a step machine: the event broker's loop over a
    database, a callback that may fail, lossy trigger channels, timers, crashes and
    restarts.  Every choice of the environment is an argument of the action. */
module HttpCallback {
  import opened Types
  import opened EventLog

  /** Where the broker's goroutine is.  A pass over the unsent events is at the top of
      its loop (Sending), has set the dirty bit for the first of the remaining events
      (Locked), or has the outcome of that event to save (Saving) or only the dirty bit
      to clear before a retry (Clearing). */
  datatype Phase =
    | Down
    | Idle
    | Reading
    | Sending(rest: seq<Notification>)
    | Locked(rest: seq<Notification>)
    | Saving(rest: seq<Notification>, tries: nat)
    | Clearing(rest: seq<Notification>, tries: nat)

  /** One call of the callback, and one event that was finished with.  A round lasts until
      the number of retries is put back to zero; it stays within one process run. */
  datatype Attempt = Attempt(run: nat, round: nat, seqNo: int)

  datatype Done = Done(run: nat, round: nat, seqNo: int, acknowledged: bool)

  datatype Sender = Sender(
    // the database
    log: seq<Notification>,
    muted: set<TxId>,
    lastSent: int,
    lock: Option<int>,
    // the process
    phase: Phase,
    retries: nat,
    delay: nat,
    isRetrying: bool,
    retryingSeq: int,
    queue: seq<bool>,
    retryTimers: nat,
    errorTimers: nat,
    // what has happened
    run: nat,
    round: nat,
    attempts: seq<Attempt>,
    done: seq<Done>,
    signalled: nat)

  const SAVE_RETRIES: nat := 10

  datatype Action =
    | StoreEvent(e: Notification)
    | Signal
    | TakeTrigger
    | Read(ok: bool)
    | Advance(out: Commit)
    | Post(ok: bool)
    | Persist(out: Commit)
    | RetryTimerFires
    | ErrorTimerFires
    | Mute(tx: TxId, out: Commit)
    | Crash
    | Restart

  /** A database with no events, before the first start. */
  function Blank(): Sender {
    Sender([], {}, 0, None, Down, 0, 0, false, -1, [], 0, 0, 0, 0, [], [], 0)
  }

  // ----------------------------------------------------------------- the steps

  /** GetEventsFromSeq without the events of muted transactions. */
  function Unsent(log: seq<Notification>, muted: set<TxId>, from: int): (r: seq<Notification>)
    ensures forall e :: e in r <==> e in log && e.seqNo > from && e.tx !in muted
  {
    if log == [] then []
    else
      var n := |log| - 1;
      assert log == log[..n] + [log[n]];
      Unsent(log[..n], muted, from) + if log[n].seqNo > from && log[n].tx !in muted then [log[n]] else []
  }

  /** A non-blocking send into the trigger channel. */
  function Push(queue: seq<bool>): seq<bool> {
    if |queue| < TRIGGER_SLOTS then queue + [false] else queue
  }

  /** An error before anything was sent: come back later. */
  function EarlyError(s: Sender): Sender {
    s.(phase := Idle, errorTimers := s.errorTimers + 1)
  }

  /** sendHTTPCallbackNotifications, up to its first read. */
  function Enter(s: Sender, isRetry: bool): Sender {
    if s.isRetrying && !isRetry then s
    else s.(isRetrying := false, retryingSeq := if s.isRetrying then -1 else s.retryingSeq, phase := Reading)
  }

  /** The top of the loop: finish, skip an address event, or set the dirty bit. */
  function DoAdvance(s: Sender, rest: seq<Notification>, out: Commit): Sender {
    if rest == [] then s.(phase := Idle)
    else if rest[0].newAddress then s.(phase := Sending(rest[1..]))
    else if out.Dropped? then EarlyError(s)
    else if out.Committed? then s.(lock := Some(rest[0].seqNo), phase := Locked(rest))
    else EarlyError(s.(lock := Some(rest[0].seqNo)))
  }

  /** handleHTTPCallbackError: whether to try again. */
  predicate WillRetry(backoff: int, retries: nat) {
    backoff <= 0 || retries < backoff
  }

  function DoPost(backoff: int, s: Sender, rest: seq<Notification>, ok: bool): Sender
    requires rest != []
  {
    var s' := s.(attempts := s.attempts + [Attempt(s.run, s.round, rest[0].seqNo)],
                 retries := s.retries + 1, delay := s.delay + 1);
    if !ok && WillRetry(backoff, s'.retries) then s'.(phase := Clearing(rest, SAVE_RETRIES))
    else s'.(done := s.done + [Done(s.run, s.round, rest[0].seqNo, ok)], phase := Saving(rest, SAVE_RETRIES))
  }

  function DoSave(s: Sender, rest: seq<Notification>, tries: nat, out: Commit): Sender
    requires rest != []
  {
    var saved := s.(lastSent := rest[0].seqNo, lock := None);
    var again := if tries == 0 then Down else Saving(rest, tries - 1);
    match out
    case Committed => saved.(retries := 0, delay := 0, round := s.round + 1, phase := Sending(rest[1..]))
    case Unreported => saved.(phase := again)
    case Dropped => s.(phase := again)
  }

  function DoClear(s: Sender, rest: seq<Notification>, tries: nat, out: Commit): Sender
    requires rest != []
  {
    var again := if tries == 0 then Down else Clearing(rest, tries - 1);
    match out
    case Committed =>
      s.(lock := None, isRetrying := true, retryingSeq := rest[0].seqNo, retryTimers := s.retryTimers + 1, phase := Idle)
    case Unreported => s.(lock := None, phase := again)
    case Dropped => s.(phase := again)
  }

  /** A mute request: refused when the id is muted already or the insert fails, and the
      retry fields change only after an insert that was reported. */
  function DoMute(s: Sender, tx: TxId, out: Commit): Sender {
    if tx in s.muted || out.Dropped? then s
    else
      var s' := s.(muted := s.muted + {tx});
      if s.isRetrying && out.Committed? then s'.(retries := 0, delay := 0, round := s.round + 1) else s'
  }

  /** A new process: Run starts with a pass of its own. */
  function Fresh(s: Sender): Sender {
    s.(phase := Reading, retries := 0, delay := 0, isRetrying := false, retryingSeq := -1, queue := [],
       retryTimers := 0, errorTimers := 0, run := s.run + 1, round := s.round + 1)
  }

  function Next(backoff: int, s: Sender, a: Action): Sender {
    match a
    case StoreEvent(e) => s.(log := s.log + [e])
    case Signal => if s.phase.Down? then s else s.(queue := Push(s.queue), signalled := |s.log|)
    case TakeTrigger =>
      if s.phase.Idle? && s.queue != [] then Enter(s.(queue := s.queue[1..]), s.queue[0]) else s
    case Read(ok) =>
      if !s.phase.Reading? then s
      else if ok then s.(phase := Sending(Unsent(s.log, s.muted, s.lastSent)))
      else EarlyError(s)
    case Advance(out) => if s.phase.Sending? then DoAdvance(s, s.phase.rest, out) else s
    case Post(ok) => if s.phase.Locked? && s.phase.rest != [] then DoPost(backoff, s, s.phase.rest, ok) else s
    case Persist(out) =>
      if s.phase.Saving? && s.phase.rest != [] then DoSave(s, s.phase.rest, s.phase.tries, out)
      else if s.phase.Clearing? && s.phase.rest != [] then DoClear(s, s.phase.rest, s.phase.tries, out)
      else s
    case RetryTimerFires =>
      if s.retryTimers > 0 && |s.queue| < TRIGGER_SLOTS then
        s.(retryTimers := s.retryTimers - 1, queue := s.queue + [true])
      else s
    case ErrorTimerFires =>
      if s.errorTimers > 0 then s.(errorTimers := s.errorTimers - 1, queue := Push(s.queue)) else s
    case Mute(tx, out) => if s.phase.Idle? then DoMute(s, tx, out) else s
    case Crash => s.(phase := Down)
    case Restart => if s.phase.Down? && s.lock.None? then Fresh(s) else s
  }

  /** Sequence numbers start above zero and grow in the order events become visible. */
  predicate Legal(s: Sender, a: Action) {
    a.StoreEvent? ==> a.e.seqNo >= 1 && (s.log != [] ==> s.log[|s.log| - 1].seqNo < a.e.seqNo)
  }

  function RunFrom(backoff: int, s: Sender, actions: seq<Action>): Sender {
    if actions == [] then s
    else Next(backoff, RunFrom(backoff, s, actions[..|actions| - 1]), actions[|actions| - 1])
  }

  function Run(backoff: int, actions: seq<Action>): Sender {
    RunFrom(backoff, Blank(), actions)
  }

  predicate LegalRun(backoff: int, actions: seq<Action>) {
    actions != [] ==>
      && LegalRun(backoff, actions[..|actions| - 1])
      && Legal(Run(backoff, actions[..|actions| - 1]), actions[|actions| - 1])
  }

  // ------------------------------------------------------------- the invariant

  predicate Deliverable(muted: set<TxId>, e: Notification) {
    !e.newAddress && e.tx !in muted
  }

  ghost predicate InLog(log: seq<Notification>, n: int) {
    exists e :: e in log && e.seqNo == n
  }

  ghost predicate LogOk(log: seq<Notification>, signalled: nat, lastSent: int) {
    && Increasing(log)
    && (forall e :: e in log ==> e.seqNo >= 1)
    && signalled <= |log|
    && (lastSent == 0 || InLog(log, lastSent))
  }

  /** Attempts are on logged events, by this process run or an earlier one. */
  ghost predicate AttemptsOk(log: seq<Notification>, attempts: seq<Attempt>, run: nat) {
    forall a :: a in attempts ==> InLog(log, a.seqNo) && a.run <= run
  }

  predicate InPass(p: Phase) {
    p.Sending? || p.Locked? || p.Saving? || p.Clearing?
  }

  /** Everything up to here is settled for the purposes of the running pass. */
  function Base(phase: Phase, lastSent: int): int {
    if phase.Saving? && phase.rest != [] then phase.rest[0].seqNo - 1 else lastSent
  }

  /** The events a pass still has to handle: nothing was skipped before or between them. */
  ghost predicate RestOk(log: seq<Notification>, muted: set<TxId>, rest: seq<Notification>, base: int) {
    && Increasing(rest)
    && (forall e :: e in rest ==> e in log && e.seqNo > base && e.tx !in muted)
    && forall e :: e in log && Deliverable(muted, e) && e.seqNo > base ==>
         e in rest || forall r :: r in rest ==> r.seqNo < e.seqNo
  }

  ghost predicate PassOk(log: seq<Notification>, muted: set<TxId>, phase: Phase, lastSent: int) {
    InPass(phase) ==>
      && RestOk(log, muted, phase.rest, Base(phase, lastSent))
      && lastSent <= Base(phase, lastSent) + 1
      && (!phase.Sending? ==> phase.rest != [] && !phase.rest[0].newAddress)
  }

  /** Finished events are recorded in order; only the last may not have reached
      last_http_sent_seq, and then the dirty bit still names it. */
  ghost predicate DoneOk(done: seq<Done>, lastSent: int, lock: Option<int>, phase: Phase) {
    && (forall j, k :: 0 <= j < k < |done| ==> done[j].seqNo < done[k].seqNo)
    && (forall k :: 0 <= k < |done| && done[k].seqNo > lastSent ==>
          k == |done| - 1 && lock == Some(done[k].seqNo) && (phase.Saving? || phase.Down?))
    && (phase.Locked? && phase.rest != [] ==> lock == Some(phase.rest[0].seqNo))
    && (phase.Saving? && phase.rest != [] ==>
          done != [] && done[|done| - 1].seqNo == phase.rest[0].seqNo)
  }

  function Trues(queue: seq<bool>): nat {
    if queue == [] then 0 else Trues(queue[1..]) + if queue[0] then 1 else 0
  }

  /** One retry is outstanding exactly while the sender waits for one. */
  predicate TokenOk(queue: seq<bool>, retryTimers: nat, isRetrying: bool) {
    && |queue| <= TRIGGER_SLOTS
    && retryTimers + Trues(queue) == (if isRetrying then 1 else 0)
  }

  /** The delay is the number of attempts in seconds, and stays below the limit. */
  predicate DelayOk(backoff: int, retries: nat, delay: nat, phase: Phase, isRetrying: bool) {
    && (isRetrying ==> phase.Idle?)
    && delay == retries
    && (backoff > 0 ==> retries < backoff || (phase.Saving? && retries == backoff))
  }

  predicate Awake(s: Sender) {
    s.queue != [] || s.retryTimers > 0 || s.errorTimers > 0
  }

  /** Every signalled event that still has to be delivered or given up is either still
      ahead in the running pass or something will start another pass. */
  ghost predicate WakeOk(
    log: seq<Notification>, signalled: nat, muted: set<TxId>, lastSent: int, phase: Phase, awake: bool)
  {
    (phase.Idle? || InPass(phase)) && !awake ==>
      forall k :: 0 <= k < signalled <= |log| && Deliverable(muted, log[k]) && log[k].seqNo > lastSent ==>
        InPass(phase) && log[k] in phase.rest
  }

  /** The attempts one process run made on an event. */
  function Count(attempts: seq<Attempt>, run: nat, n: int): nat {
    if attempts == [] then 0
    else
      var last := attempts[|attempts| - 1];
      Count(attempts[..|attempts| - 1], run, n) + if last.run == run && last.seqNo == n then 1 else 0
  }

  /** The attempts of one round. */
  function InRound(attempts: seq<Attempt>, round: nat): nat {
    if attempts == [] then 0
    else InRound(attempts[..|attempts| - 1], round) + if attempts[|attempts| - 1].round == round then 1 else 0
  }

  /** Acknowledged, or given up. */
  ghost predicate Resolved(done: seq<Done>, n: int) {
    exists d :: d in done && d.seqNo == n
  }

  ghost predicate MutedEvent(log: seq<Notification>, muted: set<TxId>, n: int) {
    exists e :: e in log && e.seqNo == n && e.tx in muted
  }

  /** The first event the sender has to deal with. */
  ghost predicate IsHead(log: seq<Notification>, muted: set<TxId>, base: int, n: int) {
    && (exists e :: e in log && Deliverable(muted, e) && e.seqNo == n)
    && n > base
    && forall e :: e in log && Deliverable(muted, e) && e.seqNo > base ==> n <= e.seqNo
  }

  /** Rounds are numbered upwards, and one with a finished event is over but for saving it. */
  ghost predicate RoundsOk(attempts: seq<Attempt>, done: seq<Done>, round: nat, phase: Phase) {
    && (forall a :: a in attempts ==> a.round <= round)
    && forall d :: d in done ==> d.round <= round && (d.round == round ==> phase.Saving? || phase.Down?)
  }

  /** The attempts of the running round are all counted; they are on the first unfinished
      event or on events that are muted by now. */
  ghost predicate RoundOk(
    log: seq<Notification>, muted: set<TxId>, base: int, attempts: seq<Attempt>, round: nat, retries: nat)
  {
    && retries == InRound(attempts, round)
    && forall a :: a in attempts && a.round == round ==>
         IsHead(log, muted, base, a.seqNo) || MutedEvent(log, muted, a.seqNo)
  }

  /** An event was given up after exactly `backoff` attempts of its round, and those that
      were not on it were on events that are muted by now. */
  ghost predicate GiveUpRoundsOk(
    backoff: int, log: seq<Notification>, muted: set<TxId>, done: seq<Done>, attempts: seq<Attempt>)
  {
    forall d :: d in done && !d.acknowledged ==> GivenUp(backoff, log, muted, d, attempts)
  }

  ghost predicate GivenUp(
    backoff: int, log: seq<Notification>, muted: set<TxId>, d: Done, attempts: seq<Attempt>)
  {
    && backoff > 0 && InRound(attempts, d.round) == backoff
    && forall a :: a in attempts && a.round == d.round && a.seqNo != d.seqNo ==> MutedEvent(log, muted, a.seqNo)
  }

  ghost predicate SettledOk(log: seq<Notification>, muted: set<TxId>, base: int, done: seq<Done>) {
    forall e :: e in log && Deliverable(muted, e) && e.seqNo <= base ==> Resolved(done, e.seqNo)
  }

  /** Nothing is attempted while an earlier event is unresolved. */
  ghost predicate OrderOk(log: seq<Notification>, muted: set<TxId>, attempts: seq<Attempt>, done: seq<Done>) {
    forall a, e :: a in attempts && e in log && Deliverable(muted, e) && e.seqNo < a.seqNo ==>
      Resolved(done, e.seqNo)
  }

  /** What is finished with, in which order, and after how many attempts. */
  ghost predicate DeliveryOk(backoff: int, s: Sender) {
    var base := Base(s.phase, s.lastSent);
    && GiveUpRoundsOk(backoff, s.log, s.muted, s.done, s.attempts)
    && SettledOk(s.log, s.muted, base, s.done)
    && OrderOk(s.log, s.muted, s.attempts, s.done)
    && RoundsOk(s.attempts, s.done, s.round, s.phase)
    && (!s.phase.Down? ==> RoundOk(s.log, s.muted, base, s.attempts, s.round, s.retries))
  }

  /** A given-up event had exactly `backoff` attempts in the process run that gave it up. */
  ghost predicate GiveUpsOk(backoff: int, done: seq<Done>, attempts: seq<Attempt>) {
    forall d :: d in done && !d.acknowledged ==> backoff > 0 && Count(attempts, d.run, d.seqNo) == backoff
  }

  /** The attempts this process made on the first unfinished event are all counted. */
  ghost predicate RetriesOk(log: seq<Notification>, base: int, attempts: seq<Attempt>, run: nat, retries: nat) {
    && (forall a :: a in attempts && a.run == run && a.seqNo > base ==>
          IsHead(log, {}, base, a.seqNo) && retries == Count(attempts, run, a.seqNo))
    && ((forall a :: a in attempts && a.run == run ==> a.seqNo <= base) ==> retries == 0)
  }

  /** What holds besides while no event was ever muted. */
  ghost predicate UnmutedOk(backoff: int, s: Sender) {
    && GiveUpsOk(backoff, s.done, s.attempts)
    && (!s.phase.Down? ==> RetriesOk(s.log, Base(s.phase, s.lastSent), s.attempts, s.run, s.retries))
  }

  ghost predicate Inv(backoff: int, s: Sender) {
    && LogOk(s.log, s.signalled, s.lastSent)
    && AttemptsOk(s.log, s.attempts, s.run)
    && PassOk(s.log, s.muted, s.phase, s.lastSent)
    && DoneOk(s.done, s.lastSent, s.lock, s.phase)
    && (!s.phase.Down? ==>
          && TokenOk(s.queue, s.retryTimers, s.isRetrying)
          && DelayOk(backoff, s.retries, s.delay, s.phase, s.isRetrying))
    && WakeOk(s.log, s.signalled, s.muted, s.lastSent, s.phase, Awake(s))
    && DeliveryOk(backoff, s)
    && (s.muted == {} ==> UnmutedOk(backoff, s))
  }

  // -------------------------------------------------------------- small lemmas

  lemma {:induction false} UnsentIncreasing(log: seq<Notification>, muted: set<TxId>, from: int)
    requires Increasing(log)
    ensures Increasing(Unsent(log, muted, from))
  {
    if log != [] {
      var n := |log| - 1;
      UnsentIncreasing(log[..n], muted, from);
      var r := Unsent(log[..n], muted, from);
      forall i | 0 <= i < |r|
        ensures r[i].seqNo < log[n].seqNo
      {
        assert r[i] in log[..n];
      }
    }
  }

  lemma {:induction false} TruesSnoc(queue: seq<bool>, b: bool)
    ensures Trues(queue + [b]) == Trues(queue) + if b then 1 else 0
  {
    if queue == [] {
      assert queue + [b] == [b];
    } else {
      assert (queue + [b])[1..] == queue[1..] + [b];
      TruesSnoc(queue[1..], b);
    }
  }

  lemma CountSnoc(attempts: seq<Attempt>, a: Attempt, run: nat, n: int)
    ensures Count(attempts + [a], run, n) == Count(attempts, run, n) + if a.run == run && a.seqNo == n then 1 else 0
  {
    assert (attempts + [a])[..|attempts|] == attempts;
  }

  lemma RoundSnoc(attempts: seq<Attempt>, a: Attempt, round: nat)
    ensures InRound(attempts + [a], round) == InRound(attempts, round) + if a.round == round then 1 else 0
  {
    assert (attempts + [a])[..|attempts|] == attempts;
  }

  lemma {:induction false} CountZero(attempts: seq<Attempt>, run: nat, n: int)
    requires forall a :: a in attempts ==> a.run != run || a.seqNo != n
    ensures Count(attempts, run, n) == 0
  {
    if attempts != [] {
      CountZero(attempts[..|attempts| - 1], run, n);
    }
  }

  lemma {:induction false} RoundZero(attempts: seq<Attempt>, round: nat)
    requires forall a :: a in attempts ==> a.round < round
    ensures InRound(attempts, round) == 0
  {
    if attempts != [] {
      RoundZero(attempts[..|attempts| - 1], round);
    }
  }

  // ------------------------------------------------------------------ the steps

  lemma StoreKeeps(backoff: int, s: Sender, e: Notification)
    requires Inv(backoff, s) && Legal(s, StoreEvent(e))
    ensures Inv(backoff, Next(backoff, s, StoreEvent(e)))
  {
    hide TokenOk, DelayOk, DoneOk, GiveUpsOk, DeliveryOk, UnmutedOk;
    var s' := Next(backoff, s, StoreEvent(e));
    LogGrows(s, e);
    assert PassOk(s'.log, s.muted, s.phase, s.lastSent);
    assert AttemptsOk(s'.log, s.attempts, s.run);
    StoreDelivery(backoff, s, e);
    if s.muted == {} {
      StoreUnmuted(backoff, s, e);
    }
  }

  lemma LogGrows(s: Sender, e: Notification)
    requires LogOk(s.log, s.signalled, s.lastSent) && Legal(s, StoreEvent(e))
    ensures LogOk(s.log + [e], s.signalled, s.lastSent)
    ensures forall x :: x in s.log ==> x.seqNo < e.seqNo
    ensures e.seqNo > s.lastSent
  {
    assert forall n :: InLog(s.log, n) ==> InLog(s.log + [e], n);
  }

  /** A new event is behind the head and behind every attempt. */
  lemma StoreFacts(s: Sender, e: Notification)
    requires AttemptsOk(s.log, s.attempts, s.run) && PassOk(s.log, s.muted, s.phase, s.lastSent)
    requires (forall x :: x in s.log ==> x.seqNo < e.seqNo) && e.seqNo > s.lastSent
    ensures e.seqNo > Base(s.phase, s.lastSent)
    ensures forall a :: a in s.attempts ==> a.seqNo < e.seqNo
    ensures forall muted, n :: IsHead(s.log, muted, Base(s.phase, s.lastSent), n) ==>
              IsHead(s.log + [e], muted, Base(s.phase, s.lastSent), n)
    ensures forall n :: MutedEvent(s.log, s.muted, n) ==> MutedEvent(s.log + [e], s.muted, n)
  {
    forall a | a in s.attempts
      ensures a.seqNo < e.seqNo
    {
    }
  }

  lemma StoreDelivery(backoff: int, s: Sender, e: Notification)
    requires DeliveryOk(backoff, s)
    requires AttemptsOk(s.log, s.attempts, s.run) && PassOk(s.log, s.muted, s.phase, s.lastSent)
    requires (forall x :: x in s.log ==> x.seqNo < e.seqNo) && e.seqNo > s.lastSent
    ensures DeliveryOk(backoff, s.(log := s.log + [e]))
  {
    StoreFacts(s, e);
    hide IsHead, MutedEvent, PassOk, AttemptsOk, InRound, RoundsOk;
    assert SettledOk(s.log + [e], s.muted, Base(s.phase, s.lastSent), s.done);
  }

  lemma StoreUnmuted(backoff: int, s: Sender, e: Notification)
    requires UnmutedOk(backoff, s)
    requires AttemptsOk(s.log, s.attempts, s.run) && PassOk(s.log, s.muted, s.phase, s.lastSent)
    requires (forall x :: x in s.log ==> x.seqNo < e.seqNo) && e.seqNo > s.lastSent
    ensures UnmutedOk(backoff, s.(log := s.log + [e]))
  {
    StoreFacts(s, e);
    hide GiveUpsOk, IsHead, PassOk, AttemptsOk, Count;
  }

  lemma QueueKeeps(backoff: int, s: Sender, a: Action)
    requires Inv(backoff, s) && (a.Signal? || a.RetryTimerFires? || a.ErrorTimerFires?)
    ensures Inv(backoff, Next(backoff, s, a))
  {
    hide DelayOk, DoneOk, UnmutedOk, DeliveryOk, PassOk, AttemptsOk;
    TruesSnoc(s.queue, false);
    TruesSnoc(s.queue, true);
    Moved(backoff, s, Next(backoff, s, a));
  }

  /** A change of phase that leaves the base alone. */
  lemma Moved(backoff: int, s: Sender, t: Sender)
    requires s.log == t.log && s.muted == t.muted && s.retries == t.retries
    requires s.run == t.run && s.round == t.round && s.attempts == t.attempts && s.done == t.done
    requires Base(s.phase, s.lastSent) == Base(t.phase, t.lastSent)
    requires s.phase.Down? ==> t.phase.Down?
    requires s.phase.Saving? ==> t.phase.Saving? || t.phase.Down?
    ensures UnmutedOk(backoff, s) ==> UnmutedOk(backoff, t)
    ensures DeliveryOk(backoff, s) ==> DeliveryOk(backoff, t)
  {
    hide GiveUpsOk, SettledOk, OrderOk, RetriesOk, GiveUpRoundsOk, RoundOk;
  }

  lemma TakeKeeps(backoff: int, s: Sender)
    requires Inv(backoff, s)
    ensures Inv(backoff, Next(backoff, s, TakeTrigger))
  {
    hide UnmutedOk, DeliveryOk, AttemptsOk, LogOk, RestOk;
    Moved(backoff, s, Next(backoff, s, TakeTrigger));
  }

  lemma ReadKeeps(backoff: int, s: Sender, ok: bool)
    requires Inv(backoff, s)
    ensures Inv(backoff, Next(backoff, s, Read(ok)))
  {
    hide UnmutedOk, DeliveryOk, AttemptsOk, TokenOk;
    UnsentIncreasing(s.log, s.muted, s.lastSent);
    Moved(backoff, s, Next(backoff, s, Read(ok)));
  }

  lemma AdvanceKeeps(backoff: int, s: Sender, out: Commit)
    requires Inv(backoff, s)
    ensures Inv(backoff, Next(backoff, s, Advance(out)))
  {
    hide UnmutedOk, DeliveryOk, AttemptsOk, TokenOk, LogOk, InLog, RestOk;
    var s' := Next(backoff, s, Advance(out));
    Moved(backoff, s, s');
    if s.phase.Sending? && s.phase.rest != [] {
      SkipKeeps(s.log, s.muted, s.phase.rest, s.lastSent);
    }
  }

  lemma SkipKeeps(log: seq<Notification>, muted: set<TxId>, rest: seq<Notification>, base: int)
    requires rest != [] && RestOk(log, muted, rest, base)
    ensures rest[0].newAddress ==> RestOk(log, muted, rest[1..], base)
    ensures RestOk(log, muted, rest[1..], rest[0].seqNo)
    ensures RestOk(log, muted, rest, rest[0].seqNo - 1)
    ensures rest[0].seqNo > base && InLog(log, rest[0].seqNo)
  {
  }

  /** The event being sent is the head, and so is no other. */
  lemma RestIsHead(log: seq<Notification>, muted: set<TxId>, rest: seq<Notification>, base: int)
    requires RestOk(log, muted, rest, base) && rest != [] && !rest[0].newAddress
    ensures IsHead(log, muted, base, rest[0].seqNo) && IsHead(log, muted, rest[0].seqNo - 1, rest[0].seqNo)
    ensures forall n :: IsHead(log, muted, base, n) ==> n == rest[0].seqNo
  {
    assert rest[0] in rest;
    forall e | e in log && Deliverable(muted, e) && e.seqNo > base
      ensures rest[0].seqNo <= e.seqNo
    {
    }
  }

  /** No attempt of this process is on a later event than the one being sent. */
  lemma AttemptsReachHead(
    log: seq<Notification>, rest: seq<Notification>, base: int, attempts: seq<Attempt>, run: nat, retries: nat)
    requires RestOk(log, {}, rest, base) && rest != [] && !rest[0].newAddress
    requires RetriesOk(log, base, attempts, run, retries)
    ensures IsHead(log, {}, base, rest[0].seqNo) && IsHead(log, {}, rest[0].seqNo - 1, rest[0].seqNo)
    ensures forall a :: a in attempts && a.run == run && a.seqNo > base ==> a.seqNo == rest[0].seqNo
    ensures retries == Count(attempts, run, rest[0].seqNo)
  {
    RestIsHead(log, {}, rest, base);
    hide RestOk;
    if forall a :: a in attempts ==> a.run != run || a.seqNo != rest[0].seqNo {
      CountZero(attempts, run, rest[0].seqNo);
    }
  }

  lemma PostKeeps(backoff: int, s: Sender, ok: bool)
    requires Inv(backoff, s)
    ensures Inv(backoff, Next(backoff, s, Post(ok)))
  {
    hide UnmutedOk, DeliveryOk, TokenOk, LogOk, RestOk, AttemptsOk, InLog;
    if s.phase.Locked? {
      SkipKeeps(s.log, s.muted, s.phase.rest, s.lastSent);
      PostAttempts(s.log, s.attempts, Attempt(s.run, s.round, s.phase.rest[0].seqNo));
      PostDelivery(backoff, s, ok);
      if s.muted == {} {
        PostUnmuted(backoff, s, ok);
      }
    }
  }

  lemma PostAttempts(log: seq<Notification>, attempts: seq<Attempt>, a: Attempt)
    requires AttemptsOk(log, attempts, a.run) && InLog(log, a.seqNo)
    ensures AttemptsOk(log, attempts + [a], a.run)
  {
  }

  lemma PostDelivery(backoff: int, s: Sender, ok: bool)
    requires DeliveryOk(backoff, s) && s.phase.Locked? && s.phase.rest != [] && !s.phase.rest[0].newAddress
    requires RestOk(s.log, s.muted, s.phase.rest, s.lastSent)
    requires backoff > 0 ==> s.retries < backoff
    ensures DeliveryOk(backoff, Next(backoff, s, Post(ok)))
  {
    hide GiveUpRoundsOk, SettledOk, OrderOk, RoundOk, RestOk, IsHead, MutedEvent, InRound, GivenUp;
    var n := s.phase.rest[0].seqNo;
    var a, d := Attempt(s.run, s.round, n), Done(s.run, s.round, n, ok);
    RestIsHead(s.log, s.muted, s.phase.rest, s.lastSent);
    PostRound(s, a);
    PostGiveUpRounds(backoff, s, a, d);
    PostOrder(s.log, s.muted, s.lastSent, s.attempts, s.done, a);
    MoreResolved(s.log, s.muted, n - 1, s.attempts + [a], s.done, d);
  }

  /** One more attempt of the running round, on the head. */
  lemma PostRound(s: Sender, a: Attempt)
    requires RoundOk(s.log, s.muted, s.lastSent, s.attempts, s.round, s.retries) && a.round == s.round
    requires IsHead(s.log, s.muted, s.lastSent, a.seqNo) && IsHead(s.log, s.muted, a.seqNo - 1, a.seqNo)
    requires forall n :: IsHead(s.log, s.muted, s.lastSent, n) ==> n == a.seqNo
    ensures RoundOk(s.log, s.muted, s.lastSent, s.attempts + [a], s.round, s.retries + 1)
    ensures RoundOk(s.log, s.muted, a.seqNo - 1, s.attempts + [a], s.round, s.retries + 1)
    ensures forall x :: x in s.attempts + [a] && x.round == s.round && x.seqNo != a.seqNo ==>
              MutedEvent(s.log, s.muted, x.seqNo)
  {
    RoundSnoc(s.attempts, a, s.round);
    hide IsHead, MutedEvent, InRound;
  }

  lemma PostGiveUpRounds(backoff: int, s: Sender, a: Attempt, d: Done)
    requires GiveUpRoundsOk(backoff, s.log, s.muted, s.done, s.attempts)
    requires RoundsOk(s.attempts, s.done, s.round, s.phase) && s.phase.Locked?
    requires RoundOk(s.log, s.muted, s.lastSent, s.attempts, s.round, s.retries)
    requires a.round == d.round == s.round && d.seqNo == a.seqNo
    requires forall x :: x in s.attempts + [a] && x.round == s.round && x.seqNo != a.seqNo ==>
               MutedEvent(s.log, s.muted, x.seqNo)
    ensures GiveUpRoundsOk(backoff, s.log, s.muted, s.done, s.attempts + [a])
    ensures (!d.acknowledged ==> backoff > 0 && s.retries + 1 == backoff) ==>
              GiveUpRoundsOk(backoff, s.log, s.muted, s.done + [d], s.attempts + [a])
  {
    RoundSnoc(s.attempts, a, s.round);
    forall x | x in s.done && !x.acknowledged
      ensures GivenUp(backoff, s.log, s.muted, x, s.attempts + [a])
    {
      assert GivenUp(backoff, s.log, s.muted, x, s.attempts);
      RoundSnoc(s.attempts, a, x.round);
    }
    hide MutedEvent, InRound;
  }

  lemma PostUnmuted(backoff: int, s: Sender, ok: bool)
    requires UnmutedOk(backoff, s) && s.phase.Locked? && s.phase.rest != [] && !s.phase.rest[0].newAddress
    requires RestOk(s.log, {}, s.phase.rest, s.lastSent)
    requires DoneOk(s.done, s.lastSent, s.lock, s.phase)
    requires backoff > 0 ==> s.retries < backoff
    ensures UnmutedOk(backoff, Next(backoff, s, Post(ok)))
  {
    hide GiveUpsOk, RetriesOk, RestOk, DoneOk, Count, IsHead;
    var n := s.phase.rest[0].seqNo;
    var a, d := Attempt(s.run, s.round, n), Done(s.run, s.round, n, ok);
    AttemptsReachHead(s.log, s.phase.rest, s.lastSent, s.attempts, s.run, s.retries);
    PostRetries(s.log, s.lastSent, s.attempts, a, s.retries);
    PostGiveUps(backoff, s, a, d);
  }

  lemma PostGiveUps(backoff: int, s: Sender, a: Attempt, d: Done)
    requires GiveUpsOk(backoff, s.done, s.attempts)
    requires DoneOk(s.done, s.lastSent, s.lock, s.phase) && s.phase.Locked? && IsHead(s.log, {}, s.lastSent, a.seqNo)
    requires d.run == a.run == s.run && d.seqNo == a.seqNo
    ensures GiveUpsOk(backoff, s.done, s.attempts + [a])
    ensures (!d.acknowledged ==> backoff > 0 && Count(s.attempts + [a], s.run, a.seqNo) == backoff) ==>
              GiveUpsOk(backoff, s.done + [d], s.attempts + [a])
  {
    forall x | x in s.done
      ensures Count(s.attempts + [a], x.run, x.seqNo) == Count(s.attempts, x.run, x.seqNo)
    {
      assert x.seqNo <= s.lastSent;
      CountSnoc(s.attempts, a, x.run, x.seqNo);
    }
    hide Count;
  }

  lemma PostOrder(
    log: seq<Notification>, muted: set<TxId>, base: int, attempts: seq<Attempt>, done: seq<Done>, a: Attempt)
    requires SettledOk(log, muted, base, done) && OrderOk(log, muted, attempts, done)
    requires IsHead(log, muted, base, a.seqNo)
    ensures SettledOk(log, muted, a.seqNo - 1, done) && OrderOk(log, muted, attempts + [a], done)
  {
  }

  lemma MoreResolved(
    log: seq<Notification>, muted: set<TxId>, base: int, attempts: seq<Attempt>, done: seq<Done>, d: Done)
    requires SettledOk(log, muted, base, done) && OrderOk(log, muted, attempts, done)
    ensures SettledOk(log, muted, base, done + [d]) && OrderOk(log, muted, attempts, done + [d])
  {
    assert forall n :: Resolved(done, n) ==> Resolved(done + [d], n);
  }

  /** One more attempt on the first unfinished event. */
  lemma PostRetries(log: seq<Notification>, base: int, attempts: seq<Attempt>, a: Attempt, retries: nat)
    requires IsHead(log, {}, base, a.seqNo) && IsHead(log, {}, a.seqNo - 1, a.seqNo)
    requires RetriesOk(log, base, attempts, a.run, retries)
    requires forall x :: x in attempts && x.run == a.run && x.seqNo > base ==> x.seqNo == a.seqNo
    requires retries == Count(attempts, a.run, a.seqNo)
    ensures RetriesOk(log, base, attempts + [a], a.run, retries + 1)
    ensures RetriesOk(log, a.seqNo - 1, attempts + [a], a.run, retries + 1)
    ensures Count(attempts + [a], a.run, a.seqNo) == retries + 1
  {
    CountSnoc(attempts, a, a.run, a.seqNo);
    assert a in attempts + [a] && a.seqNo > base by {
      assert IsHead(log, {}, base, a.seqNo);
    }
    hide Count, IsHead;
  }

  lemma PersistKeeps(backoff: int, s: Sender, out: Commit)
    requires Inv(backoff, s)
    ensures Inv(backoff, Next(backoff, s, Persist(out)))
  {
    if s.phase.Saving? {
      SaveKeeps(backoff, s, out);
    } else if s.phase.Clearing? {
      ClearKeeps(backoff, s, out);
    }
  }

  lemma ClearKeeps(backoff: int, s: Sender, out: Commit)
    requires Inv(backoff, s) && s.phase.Clearing?
    ensures Inv(backoff, Next(backoff, s, Persist(out)))
  {
    hide UnmutedOk, DeliveryOk, LogOk, AttemptsOk, RestOk;
    Moved(backoff, s, Next(backoff, s, Persist(out)));
  }

  lemma SaveKeeps(backoff: int, s: Sender, out: Commit)
    requires Inv(backoff, s) && s.phase.Saving?
    ensures Inv(backoff, Next(backoff, s, Persist(out)))
  {
    hide UnmutedOk, DeliveryOk, AttemptsOk, TokenOk, RestOk, LogOk, DoneOk, WakeOk;
    var rest := s.phase.rest;
    var n := rest[0].seqNo;
    SkipKeeps(s.log, s.muted, rest, n - 1);
    SaveLog(s.log, s.muted, s.signalled, s.lastSent, rest);
    SaveDone(s, out);
    SaveWake(s, out);
    SaveDelivery(backoff, s, out);
    if s.muted == {} {
      SaveUnmuted(backoff, s, out);
    }
  }

  lemma SaveDone(s: Sender, out: Commit)
    requires s.phase.Saving? && s.phase.rest != [] && s.lastSent <= s.phase.rest[0].seqNo
    requires DoneOk(s.done, s.lastSent, s.lock, s.phase)
    ensures var t := DoSave(s, s.phase.rest, s.phase.tries, out); DoneOk(t.done, t.lastSent, t.lock, t.phase)
  {
    assert forall k :: 0 <= k < |s.done| ==> s.done[k].seqNo <= s.phase.rest[0].seqNo;
  }

  lemma SaveWake(s: Sender, out: Commit)
    requires s.phase.Saving? && s.phase.rest != [] && s.lastSent <= s.phase.rest[0].seqNo
    requires WakeOk(s.log, s.signalled, s.muted, s.lastSent, s.phase, Awake(s))
    ensures var t := DoSave(s, s.phase.rest, s.phase.tries, out);
      WakeOk(t.log, t.signalled, t.muted, t.lastSent, t.phase, Awake(t))
  {
  }

  lemma SaveLog(log: seq<Notification>, muted: set<TxId>, signalled: nat, lastSent: int, rest: seq<Notification>)
    requires LogOk(log, signalled, lastSent) && rest != [] && RestOk(log, muted, rest, rest[0].seqNo - 1)
    ensures LogOk(log, signalled, rest[0].seqNo)
  {
    assert rest[0] in rest;
  }

  lemma SaveDelivery(backoff: int, s: Sender, out: Commit)
    requires DeliveryOk(backoff, s) && s.phase.Saving? && s.phase.rest != []
    requires DoneOk(s.done, s.lastSent, s.lock, s.phase) && s.lastSent <= s.phase.rest[0].seqNo
    ensures DeliveryOk(backoff, Next(backoff, s, Persist(out)))
  {
    hide GiveUpRoundsOk, OrderOk, RoundOk, SettledOk, DoneOk;
    var n := s.phase.rest[0].seqNo;
    FreshRound(s, s.muted, n, Sending(s.phase.rest[1..]));
    SettledFurther(s, n);
    SettledLess(s.log, s.muted, s.done, s.lastSent, n);
  }

  /** A new round starts with no attempts. */
  lemma FreshRound(s: Sender, muted: set<TxId>, base: int, phase: Phase)
    requires RoundsOk(s.attempts, s.done, s.round, s.phase)
    ensures RoundOk(s.log, muted, base, s.attempts, s.round + 1, 0)
    ensures RoundsOk(s.attempts, s.done, s.round + 1, phase)
  {
    RoundZero(s.attempts, s.round + 1);
    hide InRound;
  }

  lemma SaveUnmuted(backoff: int, s: Sender, out: Commit)
    requires UnmutedOk(backoff, s) && s.phase.Saving? && s.phase.rest != [] && !s.phase.rest[0].newAddress
    requires RestOk(s.log, {}, s.phase.rest, s.phase.rest[0].seqNo - 1)
    ensures UnmutedOk(backoff, Next(backoff, s, Persist(out)))
  {
    hide GiveUpsOk, RetriesOk, RestOk, Count;
    var n := s.phase.rest[0].seqNo;
    AttemptsReachHead(s.log, s.phase.rest, n - 1, s.attempts, s.run, s.retries);
    SaveRetries(s.log, n, s.attempts, s.run);
  }

  lemma SaveRetries(log: seq<Notification>, n: int, attempts: seq<Attempt>, run: nat)
    requires forall a :: a in attempts && a.run == run && a.seqNo > n - 1 ==> a.seqNo == n
    ensures RetriesOk(log, n, attempts, run, 0)
  {
  }

  lemma SettledFurther(s: Sender, n: int)
    requires s.phase.Saving? && s.phase.rest != [] && n == s.phase.rest[0].seqNo
    requires SettledOk(s.log, s.muted, n - 1, s.done) && DoneOk(s.done, s.lastSent, s.lock, s.phase)
    ensures SettledOk(s.log, s.muted, n, s.done)
  {
    assert Resolved(s.done, n) by {
      assert s.done[|s.done| - 1] in s.done;
    }
  }

  lemma SettledLess(log: seq<Notification>, muted: set<TxId>, done: seq<Done>, m: int, n: int)
    requires SettledOk(log, muted, n, done) && m <= n
    ensures SettledOk(log, muted, m, done)
  {
  }

  /** Muting a transaction leaves the head the head, or its event is now a muted one. */
  lemma MuteDelivery(backoff: int, s: Sender, tx: TxId)
    requires DeliveryOk(backoff, s) && s.phase.Idle?
    ensures DeliveryOk(backoff, s.(muted := s.muted + {tx}))
    ensures DeliveryOk(backoff, s.(muted := s.muted + {tx}, retries := 0, delay := 0, round := s.round + 1))
  {
    var muted := s.muted + {tx};
    MuteHead(s.log, s.muted, tx, s.lastSent);
    FreshRound(s, muted, s.lastSent, Idle);
    hide IsHead, MutedEvent, InRound, RoundsOk;
    forall d | d in s.done && !d.acknowledged
      ensures GivenUp(backoff, s.log, muted, d, s.attempts)
    {
      assert GivenUp(backoff, s.log, s.muted, d, s.attempts);
    }
    hide GivenUp;
    assert SettledOk(s.log, muted, s.lastSent, s.done);
    assert OrderOk(s.log, muted, s.attempts, s.done);
    assert RoundOk(s.log, muted, s.lastSent, s.attempts, s.round, s.retries);
  }

  lemma MuteHead(log: seq<Notification>, muted: set<TxId>, tx: TxId, base: int)
    ensures forall n :: IsHead(log, muted, base, n) ==>
              IsHead(log, muted + {tx}, base, n) || MutedEvent(log, muted + {tx}, n)
    ensures forall n :: MutedEvent(log, muted, n) ==> MutedEvent(log, muted + {tx}, n)
  {
    forall n | IsHead(log, muted, base, n)
      ensures IsHead(log, muted + {tx}, base, n) || MutedEvent(log, muted + {tx}, n)
    {
      var e :| e in log && Deliverable(muted, e) && e.seqNo == n;
      if e.tx != tx {
        assert Deliverable(muted + {tx}, e);
      }
    }
  }

  lemma MuteKeeps(backoff: int, s: Sender, tx: TxId, out: Commit)
    requires Inv(backoff, s)
    ensures Inv(backoff, Next(backoff, s, Mute(tx, out)))
  {
    hide UnmutedOk, DeliveryOk, AttemptsOk, TokenOk, LogOk;
    var s' := Next(backoff, s, Mute(tx, out));
    if s.phase.Idle? && s' != s {
      MuteDelivery(backoff, s, tx);
      assert tx in s'.muted;
      assert WakeOk(s.log, s.signalled, s'.muted, s.lastSent, s.phase, Awake(s));
    }
  }

  lemma CrashKeeps(backoff: int, s: Sender)
    requires Inv(backoff, s)
    ensures Inv(backoff, Next(backoff, s, Crash))
  {
    hide AttemptsOk, TokenOk, LogOk, DeliveryOk, GiveUpsOk, RetriesOk;
    CrashDelivery(backoff, s);
  }

  lemma CrashDelivery(backoff: int, s: Sender)
    requires DeliveryOk(backoff, s) && PassOk(s.log, s.muted, s.phase, s.lastSent)
    requires DoneOk(s.done, s.lastSent, s.lock, s.phase)
    ensures DeliveryOk(backoff, s.(phase := Down))
  {
    hide GiveUpRoundsOk, OrderOk, RoundOk, SettledOk, DoneOk, RestOk;
    if s.phase.Saving? && s.phase.rest != [] {
      SettledFurther(s, s.phase.rest[0].seqNo);
      SettledLess(s.log, s.muted, s.done, s.lastSent, s.phase.rest[0].seqNo);
    }
  }

  lemma RestartKeeps(backoff: int, s: Sender)
    requires Inv(backoff, s)
    ensures Inv(backoff, Next(backoff, s, Restart))
  {
    hide LogOk, GiveUpsOk, DeliveryOk;
    if s.phase.Down? {
      RestartDelivery(backoff, s);
    }
  }

  lemma RestartDelivery(backoff: int, s: Sender)
    requires DeliveryOk(backoff, s) && s.phase.Down?
    ensures DeliveryOk(backoff, Fresh(s))
  {
    FreshRound(s, s.muted, s.lastSent, Reading);
    hide GiveUpRoundsOk, OrderOk, RoundOk, SettledOk, RoundsOk;
  }

  lemma StepKeeps(backoff: int, s: Sender, a: Action)
    requires Inv(backoff, s) && Legal(s, a)
    ensures Inv(backoff, Next(backoff, s, a))
  {
    match a
    case StoreEvent(e) => StoreKeeps(backoff, s, e);
    case Signal => QueueKeeps(backoff, s, a);
    case TakeTrigger => TakeKeeps(backoff, s);
    case Read(ok) => ReadKeeps(backoff, s, ok);
    case Advance(out) => AdvanceKeeps(backoff, s, out);
    case Post(ok) => PostKeeps(backoff, s, ok);
    case Persist(out) => PersistKeeps(backoff, s, out);
    case RetryTimerFires => QueueKeeps(backoff, s, a);
    case ErrorTimerFires => QueueKeeps(backoff, s, a);
    case Mute(tx, out) => MuteKeeps(backoff, s, tx, out);
    case Crash => CrashKeeps(backoff, s);
    case Restart => RestartKeeps(backoff, s);
  }

  lemma {:induction false} RunKeeps(backoff: int, actions: seq<Action>)
    requires LegalRun(backoff, actions)
    ensures Inv(backoff, Run(backoff, actions))
  {
    if actions != [] {
      var before := actions[..|actions| - 1];
      RunKeeps(backoff, before);
      StepKeeps(backoff, Run(backoff, before), actions[|actions| - 1]);
    }
  }

  // --------------------------------------------------------------- over all runs

  /** A state some legal run from an empty database ends in. */
  ghost predicate Reachable(backoff: int, s: Sender) {
    exists actions :: LegalRun(backoff, actions) && s == Run(backoff, actions)
  }

  lemma ReachableInv(backoff: int, s: Sender)
    requires Reachable(backoff, s)
    ensures Inv(backoff, s)
  {
    hide Inv, Run, LegalRun;
    var actions :| LegalRun(backoff, actions) && s == Run(backoff, actions);
    RunKeeps(backoff, actions);
  }

  /** Crash safety: while the callback lock is clear everything acknowledged or given
      up is covered by last_http_sent_seq, so no event is finished with twice, in this
      process or after any number of restarts. */
  lemma AcknowledgedOnce(backoff: int, s: Sender)
    requires Reachable(backoff, s)
    ensures s.lock.None? ==> forall d :: d in s.done ==> d.seqNo <= s.lastSent
    ensures forall d :: d in s.done && d.seqNo > s.lastSent ==> s.lock == Some(d.seqNo)
    ensures forall j, k :: 0 <= j < k < |s.done| ==> s.done[j].seqNo < s.done[k].seqNo
  {
    ReachableInv(backoff, s);
    hide Reachable;
  }

  /** Once the callback acknowledged an event, or it was given up, it is not posted again. */
  lemma FinishedIsNeverPosted(backoff: int, s: Sender, ok: bool)
    requires Reachable(backoff, s) && s.phase.Locked?
    ensures var t := Next(backoff, s, Post(ok));
      && |t.attempts| == |s.attempts| + 1 && t.attempts[..|s.attempts|] == s.attempts
      && forall d :: d in s.done ==> d.seqNo < t.attempts[|s.attempts|].seqNo
  {
    ReachableInv(backoff, s);
    hide Reachable;
    assert s.phase.rest[0] in s.phase.rest;
  }

  /** A running process has exactly one retry outstanding while it is retrying and none
      otherwise, and its retry delay in seconds is its number of attempts. */
  lemma OneRetryToken(backoff: int, s: Sender)
    requires Reachable(backoff, s) && !s.phase.Down?
    ensures s.retryTimers + Trues(s.queue) == if s.isRetrying then 1 else 0
    ensures s.delay == s.retries && (backoff > 0 ==> s.retries <= backoff)
    ensures |s.queue| <= TRIGGER_SLOTS
  {
    ReachableInv(backoff, s);
    hide Reachable;
  }

  /** An event that was signalled and is neither delivered nor given up keeps a trigger,
      a retry or an error timer outstanding whenever the broker is idle; during a pass
      it is otherwise still ahead in that pass. */
  lemma NoLostWakeUp(backoff: int, s: Sender, k: nat)
    requires Reachable(backoff, s) && k < s.signalled
    ensures k < |s.log|
    ensures (s.phase.Idle? || InPass(s.phase)) && Deliverable(s.muted, s.log[k]) && s.log[k].seqNo > s.lastSent ==>
              || s.queue != [] || s.retryTimers > 0 || s.errorTimers > 0
              || (InPass(s.phase) && s.log[k] in s.phase.rest)
  {
    ReachableInv(backoff, s);
    hide Reachable;
  }

  /** Whatever last_http_sent_seq covers, but for muted transactions, was acknowledged or
      given up.  A given-up event had, in the last round before that, exactly `backoff`
      attempts together with those on events that are muted by now; without muting, it
      had exactly `backoff` attempts in the process run that gave it up. */
  lemma DeliveredOrGivenUp(backoff: int, s: Sender, e: Notification)
    requires Reachable(backoff, s)
    requires e in s.log && Deliverable(s.muted, e) && e.seqNo <= s.lastSent
    ensures exists d :: d in s.done && d.seqNo == e.seqNo
              && (d.acknowledged ||
                    (GivenUp(backoff, s.log, s.muted, d, s.attempts)
                     && (s.muted == {} ==> Count(s.attempts, d.run, d.seqNo) == backoff)))
  {
    ReachableInv(backoff, s);
    hide Reachable;
    if e.seqNo > Base(s.phase, s.lastSent) {
      assert s.done[|s.done| - 1] in s.done;
    }
    assert Resolved(s.done, e.seqNo);
  }

  /** The attempts of one round on one event. */
  function Own(attempts: seq<Attempt>, round: nat, n: int): nat {
    if attempts == [] then 0
    else
      var last := attempts[|attempts| - 1];
      Own(attempts[..|attempts| - 1], round, n) + if last.round == round && last.seqNo == n then 1 else 0
  }

  lemma {:induction false} OwnIsAllIff(attempts: seq<Attempt>, round: nat, n: int)
    ensures Own(attempts, round, n) <= InRound(attempts, round)
    ensures Own(attempts, round, n) == InRound(attempts, round) <==>
              forall a :: a in attempts && a.round == round ==> a.seqNo == n
  {
    if attempts != [] {
      OwnIsAllIff(attempts[..|attempts| - 1], round, n);
    }
  }

  /** An event was given up after exactly `backoff` attempts of its own in that round if and
      only if none of the round was spent on an event that is muted by now. */
  lemma GivenUpAfterBackoffIff(backoff: int, s: Sender, d: Done)
    requires Reachable(backoff, s) && d in s.done && !d.acknowledged
    ensures Own(s.attempts, d.round, d.seqNo) <= backoff
    ensures Own(s.attempts, d.round, d.seqNo) == backoff <==>
              forall a :: a in s.attempts && a.round == d.round && MutedEvent(s.log, s.muted, a.seqNo) ==>
                a.seqNo == d.seqNo
  {
    ReachableInv(backoff, s);
    assert GivenUp(backoff, s.log, s.muted, d, s.attempts);
    OwnIsAllIff(s.attempts, d.round, d.seqNo);
    hide Reachable, Inv, MutedEvent, InRound, Own;
  }

  /** But for muted transactions, no event is attempted while an earlier one is neither
      acknowledged nor given up. */
  lemma DeliveredInOrder(backoff: int, s: Sender, a: Attempt, e: Notification)
    requires Reachable(backoff, s) && a in s.attempts
    requires e in s.log && Deliverable(s.muted, e) && e.seqNo < a.seqNo
    ensures exists d :: d in s.done && d.seqNo == e.seqNo
  {
    ReachableInv(backoff, s);
    hide Reachable;
  }

  // --------------------------------------------------------------- a clean pass

  lemma {:induction false} RunFromAppend(backoff: int, s: Sender, a: seq<Action>, b: seq<Action>)
    ensures RunFrom(backoff, s, a + b) == RunFrom(backoff, RunFrom(backoff, s, a), b)
  {
    if b == [] {
      assert a + b == a;
    } else {
      assert (a + b)[..|a + b| - 1] == a + b[..|b| - 1];
      RunFromAppend(backoff, s, a, b[..|b| - 1]);
    }
  }

  /** The steps of a pass in which nothing fails. */
  function CleanSteps(rest: seq<Notification>): seq<Action> {
    if rest == [] then [Advance(Committed)] else CleanFirst(rest[0]) + CleanSteps(rest[1..])
  }

  function CleanFirst(e: Notification): seq<Action> {
    if e.newAddress then [Advance(Committed)] else [Advance(Committed), Post(true), Persist(Committed)]
  }

  /** Each acknowledgement ends a round. */
  function Acks(run: nat, round: nat, rest: seq<Notification>): seq<Done>
    decreases |rest|
  {
    if rest == [] then []
    else if rest[0].newAddress then Acks(run, round, rest[1..])
    else [Done(run, round, rest[0].seqNo, true)] + Acks(run, round + 1, rest[1..])
  }

  /** From s to t every event of `rest` was acknowledged once, in order. */
  ghost predicate Delivered(s: Sender, t: Sender, rest: seq<Notification>) {
    var acks := Acks(s.run, s.round, rest);
    && t.phase.Idle? && t.log == s.log && t.muted == s.muted && t.run == s.run
    && t.done == s.done + acks
    && t.lastSent == (if acks == [] then s.lastSent else acks[|acks| - 1].seqNo)
  }

  /** A pass in which nothing fails delivers every remaining event once, in order, and
      ends idle. */
  lemma {:induction false} CleanPassDelivers(backoff: int, s: Sender, rest: seq<Notification>)
    requires s.phase == Sending(rest)
    ensures Delivered(s, RunFrom(backoff, s, CleanSteps(rest)), rest)
    decreases |rest|
  {
    if rest == [] {
      assert CleanSteps(rest) == [Advance(Committed)];
      assert RunFrom(backoff, s, []) == s;
    } else {
      hide RunFrom, Next, Delivered, Acks;
      var first := CleanFirst(rest[0]);
      FirstDelivered(backoff, s, rest);
      var s1 := RunFrom(backoff, s, first);
      CleanPassDelivers(backoff, s1, rest[1..]);
      RunFromAppend(backoff, s, first, CleanSteps(rest[1..]));
      DeliveredMore(s, s1, RunFrom(backoff, s1, CleanSteps(rest[1..])), rest);
    }
  }

  lemma DeliveredMore(s: Sender, s1: Sender, t: Sender, rest: seq<Notification>)
    requires rest != [] && FirstDone(s, s1, rest) && Delivered(s1, t, rest[1..])
    ensures Delivered(s, t, rest)
  {
  }

  ghost predicate FirstDone(s: Sender, t: Sender, rest: seq<Notification>)
    requires rest != []
  {
    && t.phase == Sending(rest[1..]) && t.log == s.log && t.muted == s.muted && t.run == s.run
    && if rest[0].newAddress then t.done == s.done && t.lastSent == s.lastSent && t.round == s.round
       else t.done == s.done + [Done(s.run, s.round, rest[0].seqNo, true)] && t.lastSent == rest[0].seqNo
            && t.round == s.round + 1
  }

  lemma FirstDelivered(backoff: int, s: Sender, rest: seq<Notification>)
    requires s.phase == Sending(rest) && rest != []
    ensures FirstDone(s, RunFrom(backoff, s, CleanFirst(rest[0])), rest)
  {
    assert RunFrom(backoff, s, [Advance(Committed)]) == Next(backoff, s, Advance(Committed));
    var three := [Advance(Committed), Post(true), Persist(Committed)];
    assert three[..2] == [Advance(Committed), Post(true)];
    assert three[..2][..1] == [Advance(Committed)];
    if !rest[0].newAddress {
      assert CleanFirst(rest[0]) == three;
    }
  }

  // --------------------------------------------------------------- a failing pass

  lemma RunThree(backoff: int, s: Sender, a: Action, b: Action, c: Action)
    ensures RunFrom(backoff, s, [a]) == Next(backoff, s, a)
    ensures RunFrom(backoff, s, [a, b]) == Next(backoff, Next(backoff, s, a), b)
    ensures RunFrom(backoff, s, [a, b, c]) == Next(backoff, Next(backoff, Next(backoff, s, a), b), c)
  {
    hide Next;
    assert [a][..0] == [] && [a, b][..1] == [a] && [a, b, c][..2] == [a, b];
  }

  /** A pass whose first event is attempted and fails. */
  function FailingPost(): seq<Action> {
    [Read(true), Advance(Committed), Post(false)]
  }

  /** The same, and the retry arranged. */
  function FailingPass(): seq<Action> {
    FailingPost() + [Persist(Committed)]
  }

  /** The state with the first event attempted and refused. */
  function Attempted(s: Sender, rest: seq<Notification>): Sender
    requires rest != []
  {
    s.(lock := Some(rest[0].seqNo), retries := s.retries + 1, delay := s.delay + 1,
       attempts := s.attempts + [Attempt(s.run, s.round, rest[0].seqNo)])
  }

  lemma PostFails(backoff: int, s: Sender, rest: seq<Notification>)
    requires s.phase.Reading? && rest == Unsent(s.log, s.muted, s.lastSent) && rest != [] && !rest[0].newAddress
    ensures RunFrom(backoff, s, FailingPost())
         == if WillRetry(backoff, s.retries + 1) then Attempted(s, rest).(phase := Clearing(rest, SAVE_RETRIES))
            else Attempted(s, rest).(phase := Saving(rest, SAVE_RETRIES),
                                     done := s.done + [Done(s.run, s.round, rest[0].seqNo, false)])
  {
    RunThree(backoff, s, Read(true), Advance(Committed), Post(false));
    hide RunFrom, Unsent;
    var s1 := Next(backoff, s, Read(true));
    assert s1 == s.(phase := Sending(rest));
    var s2 := Next(backoff, s1, Advance(Committed));
    assert s2 == s.(lock := Some(rest[0].seqNo), phase := Locked(rest));
    assert Next(backoff, s2, Post(false)) == DoPost(backoff, s2, rest, false);
  }

  /** A pass whose first event fails and will be retried. */
  lemma PassFails(backoff: int, s: Sender, rest: seq<Notification>)
    requires s.phase.Reading? && rest == Unsent(s.log, s.muted, s.lastSent) && rest != [] && !rest[0].newAddress
    requires WillRetry(backoff, s.retries + 1)
    ensures RunFrom(backoff, s, FailingPass())
         == Attempted(s, rest).(lock := None, phase := Idle, isRetrying := true, retryingSeq := rest[0].seqNo,
                                retryTimers := s.retryTimers + 1)
  {
    PostFails(backoff, s, rest);
    var t := RunFrom(backoff, s, FailingPost());
    RunFromAppend(backoff, s, FailingPost(), [Persist(Committed)]);
    RunThree(backoff, t, Persist(Committed), Crash, Crash);
    hide RunFrom, Unsent;
  }

  /** A mute during a retry has to leave the sender retrying.  The code's `true` makes it
      ignore signals until the retry comes, so one retry stays outstanding; with `false`
      the next signal starts a pass, and when that fails two retries are. */
  lemma MuteMustStayRetrying(backoff: int, s: Sender, tx: TxId, rest: seq<Notification>, flag: bool)
    requires Reachable(backoff, s) && s.phase.Idle? && s.isRetrying && s.queue == [] && tx !in s.muted
    requires rest == Unsent(s.log, s.muted + {tx}, s.lastSent) && rest != [] && !rest[0].newAddress
    requires WillRetry(backoff, 1)
    ensures var t := Next(backoff, s, Mute(tx, Committed)).(isRetrying := flag);
      var t' := RunFrom(backoff, t, [Signal, TakeTrigger] + FailingPass());
      t'.phase.Idle? && t'.isRetrying && t'.queue == [] && t'.retryTimers == if flag then 1 else 2
  {
    OneRetryToken(backoff, s);
    MutedRetry(backoff, s, tx);
    hide Reachable, Unsent, Next, RunFrom, FailingPass;
    var t := Next(backoff, s, Mute(tx, Committed)).(isRetrying := flag);
    RunFromAppend(backoff, t, [Signal, TakeTrigger], FailingPass());
    SignalledStart(backoff, t);
    if flag {
      IgnoredPass(backoff, t.(signalled := |t.log|));
    } else {
      PassFails(backoff, t.(signalled := |t.log|, phase := Reading), rest);
    }
  }

  lemma MutedRetry(backoff: int, s: Sender, tx: TxId)
    requires s.phase.Idle? && s.isRetrying && tx !in s.muted
    ensures Next(backoff, s, Mute(tx, Committed))
         == s.(muted := s.muted + {tx}, retries := 0, delay := 0, round := s.round + 1)
  {
  }

  /** A signal starts a pass unless a retry is awaited. */
  lemma SignalledStart(backoff: int, s: Sender)
    requires s.phase.Idle? && s.queue == []
    ensures RunFrom(backoff, s, [Signal, TakeTrigger])
         == s.(signalled := |s.log|, phase := if s.isRetrying then Idle else Reading)
  {
    RunThree(backoff, s, Signal, TakeTrigger, Crash);
    hide RunFrom;
    assert Next(backoff, s, Signal) == s.(queue := [false], signalled := |s.log|);
  }

  /** Without a pass its steps do nothing. */
  lemma IgnoredPass(backoff: int, s: Sender)
    requires s.phase.Idle?
    ensures RunFrom(backoff, s, FailingPass()) == s
  {
    RunFromAppend(backoff, s, FailingPost(), [Persist(Committed)]);
    RunThree(backoff, s, Read(true), Advance(Committed), Post(false));
    RunThree(backoff, s, Persist(Committed), Crash, Crash);
  }

  // ------------------------------------- an event given up after too few attempts

  /** The retry is taken up but cannot read the events, a transaction is muted, and the
      error timer starts another pass. */
  function MuteInBetween(tx: TxId): seq<Action> {
    [RetryTimerFires, TakeTrigger, Read(false)] + [Mute(tx, Committed), ErrorTimerFires, TakeTrigger]
  }

  /** A mute while no retry is outstanding does not put the retries back to zero. */
  lemma MuteKeepsRetries(backoff: int, s: Sender, tx: TxId)
    requires s.phase.Idle? && s.isRetrying && s.retryTimers == 1 && s.queue == [] && tx !in s.muted
    ensures RunFrom(backoff, s, MuteInBetween(tx))
         == s.(phase := Reading, isRetrying := false, retryingSeq := -1, retryTimers := 0, muted := s.muted + {tx})
  {
    RunFromAppend(backoff, s, [RetryTimerFires, TakeTrigger, Read(false)], [Mute(tx, Committed), ErrorTimerFires, TakeTrigger]);
    RunThree(backoff, s, RetryTimerFires, TakeTrigger, Read(false));
    hide RunFrom;
    var s1 := Next(backoff, s, RetryTimerFires);
    assert s1 == s.(retryTimers := 0, queue := [true]);
    var s2 := Next(backoff, s1, TakeTrigger);
    assert s2 == s.(retryTimers := 0, isRetrying := false, retryingSeq := -1, phase := Reading);
    var s3 := Next(backoff, s2, Read(false));
    assert s3 == s2.(phase := Idle, errorTimers := s.errorTimers + 1);
    RunThree(backoff, s3, Mute(tx, Committed), ErrorTimerFires, TakeTrigger);
    var s4 := Next(backoff, s3, Mute(tx, Committed));
    assert s4 == s3.(muted := s.muted + {tx});
    assert Next(backoff, s4, ErrorTimerFires) == s4.(errorTimers := s.errorTimers, queue := [false]);
  }

  const FIRST_EVENT := Notification(1, false, 1)

  const SECOND_EVENT := Notification(2, false, 2)

  function EarlyStart(): seq<Action> {
    [StoreEvent(FIRST_EVENT)] + ([Restart] + FailingPass())
  }

  function EarlyEnd(): seq<Action> {
    MuteInBetween(1) + FailingPost()
  }

  /** One attempt on the first event fails, its transaction is muted in between, and the
      next pass attempts the second event once. */
  function EarlyActions(): seq<Action> {
    EarlyStart() + [StoreEvent(SECOND_EVENT)] + EarlyEnd()
  }

  lemma {:induction false} LegalAppend(backoff: int, a: seq<Action>, b: seq<Action>)
    requires LegalRun(backoff, a) && forall x :: x in b ==> !x.StoreEvent?
    ensures LegalRun(backoff, a + b)
  {
    if b == [] {
      assert a + b == a;
    } else {
      assert (a + b)[..|a + b| - 1] == a + b[..|b| - 1];
      LegalAppend(backoff, a, b[..|b| - 1]);
    }
  }

  lemma LegalStore(backoff: int, a: seq<Action>, e: Notification)
    requires LegalRun(backoff, a) && Legal(Run(backoff, a), StoreEvent(e))
    ensures LegalRun(backoff, a + [StoreEvent(e)])
  {
    assert (a + [StoreEvent(e)])[..|a|] == a;
  }

  lemma UnsentEvents()
    ensures Unsent([FIRST_EVENT], {}, 0) == [FIRST_EVENT]
    ensures Unsent([FIRST_EVENT, SECOND_EVENT], {1}, 0) == [SECOND_EVENT]
  {
    var one := [FIRST_EVENT];
    assert one[..0] == [] && [FIRST_EVENT, SECOND_EVENT][..1] == one;
    assert Unsent(one, {}, 0) == Unsent(one[..0], {}, 0) + [FIRST_EVENT];
    assert Unsent(one, {1}, 0) == Unsent(one[..0], {1}, 0);
  }

  /** The first event has failed once. */
  const AFTER_FAILURE :=
    Sender([FIRST_EVENT], {}, 0, None, Idle, 1, 1, true, 1, [], 1, 0, 1, 1, [Attempt(1, 1, 1)], [], 0)

  lemma EarlyStored()
    ensures LegalRun(2, [StoreEvent(FIRST_EVENT)])
    ensures Run(2, [StoreEvent(FIRST_EVENT)]) == Blank().(log := [FIRST_EVENT])
  {
    assert [] + [StoreEvent(FIRST_EVENT)] == [StoreEvent(FIRST_EVENT)];
    LegalStore(2, [], FIRST_EVENT);
    RunThree(2, Blank(), StoreEvent(FIRST_EVENT), Crash, Crash);
    hide RunFrom, LegalRun;
  }

  lemma RestartIs(backoff: int, s: Sender)
    requires s.phase.Down? && s.lock.None?
    ensures RunFrom(backoff, s, [Restart]) == Fresh(s)
  {
    RunThree(backoff, s, Restart, Crash, Crash);
    hide RunFrom;
  }

  lemma EarlyFailure()
    ensures LegalRun(2, EarlyStart()) && Run(2, EarlyStart()) == AFTER_FAILURE
  {
    EarlyStored();
    LegalAppend(2, [StoreEvent(FIRST_EVENT)], [Restart] + FailingPass());
    UnsentEvents();
    hide RunFrom, LegalRun, Unsent, Next, FailingPass;
    var s := Blank().(log := [FIRST_EVENT]);
    RestartIs(2, s);
    PassFails(2, Fresh(s), [FIRST_EVENT]);
    RunFromAppend(2, Blank(), [StoreEvent(FIRST_EVENT)], [Restart] + FailingPass());
    RunFromAppend(2, s, [Restart], FailingPass());
  }

  lemma EarlyLegal()
    ensures LegalRun(2, EarlyActions())
    ensures Run(2, EarlyActions()) == RunFrom(2, AFTER_FAILURE.(log := [FIRST_EVENT, SECOND_EVENT]), EarlyEnd())
  {
    EarlyFailure();
    LegalStore(2, EarlyStart(), SECOND_EVENT);
    LegalAppend(2, EarlyStart() + [StoreEvent(SECOND_EVENT)], EarlyEnd());
    RunThree(2, AFTER_FAILURE, StoreEvent(SECOND_EVENT), Crash, Crash);
    hide RunFrom, LegalRun, EarlyStart, EarlyEnd;
    assert Next(2, AFTER_FAILURE, StoreEvent(SECOND_EVENT)) == AFTER_FAILURE.(log := [FIRST_EVENT, SECOND_EVENT]);
    RunFromAppend(2, Blank(), EarlyStart(), [StoreEvent(SECOND_EVENT)]);
    RunFromAppend(2, Blank(), EarlyStart() + [StoreEvent(SECOND_EVENT)], EarlyEnd());
  }

  /** With a limit of two attempts, the second event is given up after one. */
  lemma GivenUpEarly()
    ensures LegalRun(2, EarlyActions())
    ensures var s := Run(2, EarlyActions());
      && SECOND_EVENT in s.log && SECOND_EVENT.tx !in s.muted
      && s.attempts == [Attempt(1, 1, 1), Attempt(1, 1, 2)]
      && s.done == [Done(1, 1, 2, false)]
  {
    EarlyLegal();
    UnsentEvents();
    hide RunFrom, LegalRun, Unsent, Next, Run, EarlyActions, MuteInBetween, FailingPost;
    var s := AFTER_FAILURE.(log := [FIRST_EVENT, SECOND_EVENT]);
    RunFromAppend(2, s, MuteInBetween(1), FailingPost());
    MuteKeepsRetries(2, s, 1);
    assert s.muted + {1} == {1};
    var t := s.(phase := Reading, isRetrying := false, retryingSeq := -1, retryTimers := 0, muted := {1});
    PostFails(2, t, [SECOND_EVENT]);
  }
}
