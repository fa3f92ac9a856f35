/** What each step of the HTTP callback sender does, in terms of its state before. */
module SenderOutcomes {
  import opened Types
  import opened EventLog
  import opened HttpCallback

  /** A queued trigger starts a pass unless a retry is awaited and this is not it. */
  lemma TriggerOutcome(backoff: int, s: Sender)
    requires s.phase == Idle && s.queue != []
    ensures var s' := Next(backoff, s, TakeTrigger);
      && s'.queue == s.queue[1..]
      && (s'.phase == Reading <==> !s.isRetrying || s.queue[0])
      && (s'.phase != Reading ==> s' == s.(queue := s.queue[1..]))
      && (s'.phase == Reading ==> !s'.isRetrying && s'.attempts == s.attempts && s'.retries == s.retries)
  {
  }

  /** A signal is queued while fewer than three triggers are; a retry waits for a free slot. */
  lemma SignalOutcome(backoff: int, s: Sender)
    requires s.phase != Down
    ensures Next(backoff, s, Signal).queue == (if |s.queue| < 3 then s.queue + [false] else s.queue)
    ensures s.errorTimers > 0 ==>
              Next(backoff, s, ErrorTimerFires).queue == if |s.queue| < 3 then s.queue + [false] else s.queue
    ensures s.retryTimers > 0 ==>
              Next(backoff, s, RetryTimerFires)
              == if |s.queue| < 3 then s.(retryTimers := s.retryTimers - 1, queue := s.queue + [true]) else s
  {
  }

  /** A read that works yields exactly the unmuted events above last_http_sent_seq, in
      order; one that fails leaves an error timer. */
  lemma ReadOutcome(backoff: int, s: Sender)
    requires s.phase == Reading && Increasing(s.log)
    ensures var s' := Next(backoff, s, Read(true));
      && s'.phase.Sending? && s' == s.(phase := s'.phase)
      && Increasing(s'.phase.rest)
      && forall e :: e in s'.phase.rest <==> e in s.log && e.seqNo > s.lastSent && e.tx !in s.muted
    ensures Next(backoff, s, Read(false)) == s.(phase := Idle, errorTimers := s.errorTimers + 1)
  {
    UnsentIncreasing(s.log, s.muted, s.lastSent);
  }

  /** The top of the loop. */
  lemma AdvanceOutcome(backoff: int, s: Sender, rest: seq<Notification>, out: Commit)
    requires s.phase == Sending(rest)
    ensures var s' := Next(backoff, s, Advance(out));
      && (rest == [] ==> s' == s.(phase := Idle))
      && (rest != [] && rest[0].newAddress ==> s' == s.(phase := Sending(rest[1..])))
      && (rest != [] && !rest[0].newAddress && out == Committed ==>
            s' == s.(lock := Some(rest[0].seqNo), phase := Locked(rest)))
      && (rest != [] && !rest[0].newAddress && out == Dropped ==>
            s' == s.(phase := Idle, errorTimers := s.errorTimers + 1))
      && (rest != [] && !rest[0].newAddress && out == Unreported ==>
            s' == s.(lock := Some(rest[0].seqNo), phase := Idle, errorTimers := s.errorTimers + 1))
  {
  }

  /** One call of the callback: counted, and finished with if it was acknowledged or was
      the last of the allowed attempts. */
  lemma PostOutcome(backoff: int, s: Sender, rest: seq<Notification>, ok: bool)
    requires s.phase == Locked(rest) && rest != []
    ensures var s' := Next(backoff, s, Post(ok));
      var n, last := rest[0].seqNo, ok || (0 < backoff && backoff <= s.retries + 1);
      && s'.attempts == s.attempts + [Attempt(s.run, s.round, n)]
      && s'.retries == s.retries + 1 && s'.delay == s.delay + 1
      && s'.done == s.done + (if last then [Done(s.run, s.round, n, ok)] else [])
      && s'.phase == (if last then Saving(rest, 10) else Clearing(rest, 10))
      && s' == s.(attempts := s'.attempts, retries := s'.retries, delay := s'.delay, done := s'.done, phase := s'.phase)
  {
  }

  /** A refused event is given up if and only if this was attempt number `backoff` of the
      round, and never when the limit is zero or less. */
  lemma GivesUpIff(backoff: int, s: Sender, rest: seq<Notification>)
    requires Reachable(backoff, s) && s.phase == Locked(rest)
    ensures var s' := Next(backoff, s, Post(false));
      s'.done != s.done <==> backoff > 0 && InRound(s'.attempts, s.round) == backoff
  {
    hide Reachable, Inv, Next, InRound;
    ReachableInv(backoff, s);
    LockedFacts(backoff, s, rest);
    RoundSnoc(s.attempts, Attempt(s.run, s.round, rest[0].seqNo), s.round);
    PostOutcome(backoff, s, rest, false);
  }

  lemma LockedFacts(backoff: int, s: Sender, rest: seq<Notification>)
    requires Inv(backoff, s) && s.phase == Locked(rest)
    ensures rest != [] && s.retries == InRound(s.attempts, s.round) && (backoff > 0 ==> s.retries < backoff)
  {
    hide LogOk, AttemptsOk, RestOk, DoneOk, TokenOk, WakeOk, UnmutedOk, GiveUpRoundsOk, SettledOk, OrderOk, RoundsOk, InRound,
      IsHead, MutedEvent;
  }

  /** The outcome of an event saved: last_http_sent_seq, the dirty bit, the retries. */
  lemma SavedOutcome(backoff: int, s: Sender, rest: seq<Notification>, tries: nat)
    requires s.phase == Saving(rest, tries) && rest != []
    ensures Next(backoff, s, Persist(Committed))
         == s.(lastSent := rest[0].seqNo, lock := None, retries := 0, delay := 0, round := s.round + 1,
               phase := Sending(rest[1..]))
  {
  }

  /** Only the dirty bit cleared: a retry is on its way. */
  lemma ClearedOutcome(backoff: int, s: Sender, rest: seq<Notification>, tries: nat)
    requires s.phase == Clearing(rest, tries) && rest != []
    ensures Next(backoff, s, Persist(Committed))
         == s.(lock := None, isRetrying := true, retryingSeq := rest[0].seqNo, retryTimers := s.retryTimers + 1,
               phase := Idle)
  {
  }

  /** A crash keeps the database; a stopped process starts again if and only if the dirty
      bit is clear, with everything at zero. */
  lemma RestartIff(backoff: int, s: Sender)
    ensures Next(backoff, s, Crash) == s.(phase := Down)
    ensures s.phase == Down ==>
              Next(backoff, s, Restart)
              == if s.lock == None
                 then s.(phase := Reading, retries := 0, delay := 0, isRetrying := false, retryingSeq := -1, queue := [],
                         retryTimers := 0, errorTimers := 0, run := s.run + 1, round := s.round + 1)
                 else s
  {
  }

  function Persists(outs: seq<Commit>): (r: seq<Action>)
    ensures |r| == |outs| && forall k :: 0 <= k < |r| ==> r[k] == Persist(outs[k])
  {
    seq(|outs|, k requires 0 <= k < |outs| => Persist(outs[k]))
  }

  function TriesLeft(p: Phase): int {
    match p
    case Saving(_, tries) => tries
    case Clearing(_, tries) => tries
    case _ => -1
  }

  /** After a call of the callback the broker stops if and only if eleven attempts to save
      its outcome in a row were not reported as saved. */
  lemma {:induction false} StopsAfterElevenIff(
    backoff: int, s: Sender, rest: seq<Notification>, ok: bool, outs: seq<Commit>)
    requires s.phase == Locked(rest) && rest != []
    requires (forall k :: 0 <= k < |outs| ==> outs[k] != Committed) && |outs| <= 11
    ensures var s' := RunFrom(backoff, Next(backoff, s, Post(ok)), Persists(outs));
      && (s'.phase.Down? <==> |outs| == 11) && TriesLeft(s'.phase) == 10 - |outs|
      && (!s'.phase.Down? ==> (s'.phase.Saving? || s'.phase.Clearing?) && s'.phase.rest == rest)
  {
    hide Next;
    var s0 := Next(backoff, s, Post(ok));
    PostOutcome(backoff, s, rest, ok);
    if outs != [] {
      var init := outs[..|outs| - 1];
      StopsAfterElevenIff(backoff, s, rest, ok, init);
      assert Persists(outs)[..|init|] == Persists(init);
      UnsavedStep(backoff, RunFrom(backoff, s0, Persists(init)), rest, outs[|init|]);
    }
  }

  lemma UnsavedStep(backoff: int, s: Sender, rest: seq<Notification>, out: Commit)
    requires (s.phase.Saving? || s.phase.Clearing?) && s.phase.rest == rest != [] && out != Committed
    ensures var s' := Next(backoff, s, Persist(out));
      && TriesLeft(s'.phase) == TriesLeft(s.phase) - 1 && (s'.phase.Down? <==> TriesLeft(s'.phase) == -1)
      && (!s'.phase.Down? ==> (s'.phase.Saving? || s'.phase.Clearing?) && s'.phase.rest == rest)
  {
  }

  /** A mute during a retry puts the retries back to zero and awaits the retry as before. */
  lemma MuteOutcome(backoff: int, s: Sender, tx: TxId, out: Commit)
    requires s.phase == Idle
    ensures var s' := Next(backoff, s, Mute(tx, out));
      && (tx in s.muted || out == Dropped ==> s' == s)
      && (tx !in s.muted && out != Dropped ==> s'.muted == s.muted + {tx} && s'.isRetrying == s.isRetrying)
      && (tx !in s.muted && out == Committed && s.isRetrying ==> s'.retries == 0 && s'.delay == 0)
      && (out != Committed || !s.isRetrying ==> s'.retries == s.retries && s'.delay == s.delay)
  {
  }
}
