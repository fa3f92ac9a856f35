/** The broker's HTTP callback sender as it is written: an object whose retry fields and
    stored rows are changed in place.  What the callback and the database answer is an
    argument, and fixes every step a method takes.  Each method is a sequence of steps of module HttpCallback. */
module HttpCallbackMethods {
  import opened Types
  import opened EventLog
  import opened HttpCallback

  /** For one event: how setting its dirty bit ends, whether the callback accepts it, and
      how each attempt to save the outcome ends. */
  datatype EventAnswers = EventAnswers(lock: Commit, ok: bool, saves: nat -> Commit)

  /** For one pass: whether the read works, and the answers for each sequence number. */
  datatype Answers = Answers(read: bool, events: int -> EventAnswers)

  /** The one step that a pass takes in each phase. */
  function Answer(phase: Phase, env: Answers): Action {
    match phase
    case Sending(rest) => Advance(if rest == [] || rest[0].newAddress then Committed else env.events(rest[0].seqNo).lock)
    case Locked(rest) => Post(rest != [] && env.events(rest[0].seqNo).ok)
    case Saving(rest, tries) => Persist(SaveAnswer(rest, tries, env))
    case Clearing(rest, tries) => Persist(SaveAnswer(rest, tries, env))
    case _ => Read(env.read)
  }

  function SaveAnswer(rest: seq<Notification>, tries: nat, env: Answers): Commit {
    if rest == [] || tries > SAVE_RETRIES then Dropped else env.events(rest[0].seqNo).saves(SAVE_RETRIES - tries)
  }

  /** Every step of a pass is the one its phase and the answers call for. */
  predicate Follows(backoff: int, s: Sender, trace: seq<Action>, env: Answers) {
    trace != [] ==>
      var init := trace[..|trace| - 1];
      && Follows(backoff, s, init, env)
      && trace[|trace| - 1] == Answer(RunFrom(backoff, s, init).phase, env)
  }

  lemma FollowsNone(backoff: int, s: Sender, env: Answers)
    ensures Follows(backoff, s, [], env) && RunFrom(backoff, s, []) == s
  {
  }

  lemma FollowsSnoc(backoff: int, s: Sender, trace: seq<Action>, a: Action, env: Answers)
    requires Follows(backoff, s, trace, env) && a == Answer(RunFrom(backoff, s, trace).phase, env)
    ensures Follows(backoff, s, trace + [a], env)
    ensures RunFrom(backoff, s, trace + [a]) == Next(backoff, RunFrom(backoff, s, trace), a)
  {
    hide Answer, Next;
    assert (trace + [a])[..|trace|] == trace;
  }

  lemma {:induction false} FollowsAppend(backoff: int, s: Sender, a: seq<Action>, b: seq<Action>, env: Answers)
    requires Follows(backoff, s, a, env) && Follows(backoff, RunFrom(backoff, s, a), b, env)
    ensures Follows(backoff, s, a + b, env) && RunFrom(backoff, s, a + b) == RunFrom(backoff, RunFrom(backoff, s, a), b)
  {
    hide Answer, Next;
    if b == [] {
      assert a + b == a;
    } else {
      var init := b[..|b| - 1];
      assert a + b == a + init + [b[|b| - 1]];
      FollowsAppend(backoff, s, a, init, env);
      RunFromAppend(backoff, s, a, init);
      FollowsSnoc(backoff, s, a + init, b[|b| - 1], env);
    }
  }

  lemma OneMore(backoff: int, s: Sender, trace: seq<Action>, a: Action)
    ensures RunFrom(backoff, s, trace + [a]) == Next(backoff, RunFrom(backoff, s, trace), a)
  {
    assert (trace + [a])[..|trace|] == trace;
  }

  /** Saving the outcome of the first event, or only clearing its dirty bit. */
  function Trying(rest: seq<Notification>, save: bool, left: nat): Phase {
    if save then Saving(rest, left) else Clearing(rest, left)
  }

  lemma TryingAnswer(rest: seq<Notification>, save: bool, left: nat, env: Answers)
    requires rest != [] && left <= SAVE_RETRIES
    ensures Answer(Trying(rest, save, left), env) == Persist(env.events(rest[0].seqNo).saves(SAVE_RETRIES - left))
  {
  }

  lemma MuteIs(backoff: int, s: Sender, tx: TxId, out: Commit)
    requires s.phase.Idle?
    ensures Next(backoff, s, HttpCallback.Mute(tx, out)) == DoMute(s, tx, out)
  {
  }

  lemma PostIs(backoff: int, s: Sender, ok: bool)
    requires s.phase.Locked? && s.phase.rest != []
    ensures Next(backoff, s, Post(ok)) == DoPost(backoff, s, s.phase.rest, ok)
  {
  }

  class EventBroker {
    const backoff: int
    var log: seq<Notification>
    var muted: set<TxId>
    var lastSent: int
    var lock: Option<int>
    var retries: nat
    var delay: nat
    var isRetrying: bool
    var retryingSeq: int
    var queue: seq<bool>
    var retryTimers: nat
    var errorTimers: nat
    ghost var run: nat
    ghost var round: nat
    ghost var attempts: seq<Attempt>
    ghost var done: seq<Done>
    ghost var signalled: nat

    ghost function View(phase: Phase): Sender
      reads this
    {
      Sender(log, muted, lastSent, lock, phase, retries, delay, isRetrying, retryingSeq, queue, retryTimers, errorTimers,
             run, round, attempts, done, signalled)
    }

    /** A process that starts on a given database. */
    constructor (backoff: int, db: Sender)
      requires db.phase.Down? && db.lock.None?
      ensures this.backoff == backoff
      ensures View(Reading) == Next(backoff, db, Restart)
    {
      this.backoff := backoff;
      log, muted, lastSent, lock := db.log, db.muted, db.lastSent, None;
      retries, delay, isRetrying, retryingSeq := 0, 0, false, -1;
      queue, retryTimers, errorTimers := [], 0, 0;
      run, round, attempts, done, signalled := db.run + 1, db.round + 1, db.attempts, db.done, db.signalled;
    }

    /** SendNotifications, for its HTTP half. */
    method TriggerSending()
      modifies this`queue, this`signalled
      ensures View(Idle) == Next(backoff, old(View(Idle)), Signal)
    {
      if |queue| < TRIGGER_SLOTS {
        queue := queue + [false];
      }
      signalled := |log|;
    }

    method HandleEarlyError()
      modifies this`errorTimers
      ensures errorTimers == old(errorTimers) + 1
    {
      errorTimers := errorTimers + 1;
    }

    method Mute(tx: TxId, insert: Commit) returns (ok: bool)
      modifies this`muted, this`isRetrying, this`retries, this`delay, this`round
      ensures View(Idle) == Next(backoff, old(View(Idle)), HttpCallback.Mute(tx, insert))
      ensures ok <==> tx !in old(muted) && insert == Committed
    {
      MuteIs(backoff, View(Idle), tx, insert);
      hide Next;
      if tx in muted {
        return false;
      }
      if !insert.Dropped? {
        muted := muted + {tx};
      }
      if !insert.Committed? {
        return false;
      }
      if isRetrying {
        isRetrying := true;
        retries, delay, round := 0, 0, round + 1;
      }
      ok := true;
    }

    /** GetEventsFromSeq as the query reads the table. */
    method UnsentEvents(from: int) returns (events: seq<Notification>)
      ensures events == Unsent(log, muted, from)
    {
      events := [];
      for i := 0 to |log|
        invariant events == Unsent(log[..i], muted, from)
      {
        assert log[..i + 1][..i] == log[..i];
        if log[i].seqNo > from && log[i].tx !in muted {
          events := events + [log[i]];
        }
      }
      assert log[..|log|] == log;
    }

    /** What the pass goes on to once its result is saved. */
    ghost function Settled(rest: seq<Notification>, save: bool): Sender
      requires rest != []
      reads this
    {
      if save then View(Sending(rest[1..])).(retries := 0, delay := 0, round := round + 1)
      else View(Idle).(isRetrying := true, retryingSeq := rest[0].seqNo, retryTimers := retryTimers + 1)
    }

    /** One commit: `save` moves last_http_sent_seq and clears the dirty bit, otherwise
        only the bit is cleared. */
    method PersistOnce(rest: seq<Notification>, save: bool, left: nat, out: Commit)
      requires rest != []
      modifies this`lastSent, this`lock
      ensures Next(backoff, old(View(Trying(rest, save, left))), Persist(out))
           == if out.Committed? then Settled(rest, save)
              else View(if left == 0 then Down else Trying(rest, save, left - 1))
    {
      if !out.Dropped? {
        if save {
          lastSent := rest[0].seqNo;
        }
        lock := None;
      }
    }

    /** The retry loop; the broker stops when every try failed. */
    method PersistWithRetry(rest: seq<Notification>, save: bool, env: Answers)
      returns (alive: bool, ghost trace: seq<Action>)
      requires rest != []
      modifies this`lastSent, this`lock
      ensures 0 < |trace| <= 11
      ensures forall k :: 0 <= k < |trace| ==> trace[k] == Persist(env.events(rest[0].seqNo).saves(k))
      ensures alive <==> SavedInTime(env.events(rest[0].seqNo).saves)
      ensures Follows(backoff, old(View(Trying(rest, save, SAVE_RETRIES))), trace, env)
      ensures RunFrom(backoff, old(View(Trying(rest, save, SAVE_RETRIES))), trace)
           == if alive then Settled(rest, save) else View(Down)
    {
      hide Next, RunFrom, Follows, Answer, SavedInTime, Trying;
      var saves := env.events(rest[0].seqNo).saves;
      ghost var from := View(Trying(rest, save, SAVE_RETRIES));
      FollowsNone(backoff, from, env);
      var left := SAVE_RETRIES;
      trace := [];
      while true
        invariant 0 <= left <= SAVE_RETRIES && |trace| == SAVE_RETRIES - left
        invariant forall k :: 0 <= k < |trace| ==> trace[k] == Persist(saves(k)) && saves(k) != Committed
        invariant Follows(backoff, from, trace, env) && RunFrom(backoff, from, trace) == View(Trying(rest, save, left))
        decreases left
      {
        var out := saves(SAVE_RETRIES - left);
        PersistOnce(rest, save, left, out);
        TryingAnswer(rest, save, left, env);
        FollowsSnoc(backoff, from, trace, Persist(out), env);
        trace := trace + [Persist(out)];
        if out.Committed? {
          InTime(saves, SAVE_RETRIES - left);
          return true, trace;
        }
        if left == 0 {
          NotInTime(saves);
          return false, trace;
        }
        left := left - 1;
      }
    }

    method SetDirtyBit(rest: seq<Notification>, out: Commit)
      requires rest != [] && !rest[0].newAddress
      modifies this`lock, this`errorTimers
      ensures Next(backoff, old(View(Sending(rest))), Advance(out)) == View(if out.Committed? then Locked(rest) else Idle)
    {
      if !out.Dropped? {
        lock := Some(rest[0].seqNo);
      }
      if !out.Committed? {
        HandleEarlyError();
      }
    }

    method CallCallback(rest: seq<Notification>, ok: bool) returns (retry: bool)
      requires rest != []
      modifies this`attempts, this`done, this`retries, this`delay
      ensures Next(backoff, old(View(Locked(rest))), Post(ok)) == View(Trying(rest, !retry, SAVE_RETRIES))
    {
      PostIs(backoff, View(Locked(rest)), ok);
      hide Next;
      attempts := attempts + [Attempt(run, round, rest[0].seqNo)];
      retries := retries + 1;
      delay := delay + 1;
      retry := !ok && (backoff <= 0 || retries < backoff);
      if !retry {
        done := done + [Done(run, round, rest[0].seqNo, ok)];
      }
    }

    /** Saving the outcome of one event and what the pass does then. */
    method SettleOne(rest: seq<Notification>, retry: bool, env: Answers) returns (next: Phase, ghost trace: seq<Action>)
      requires rest != []
      modifies this
      ensures Follows(backoff, old(View(Trying(rest, !retry, SAVE_RETRIES))), trace, env)
      ensures RunFrom(backoff, old(View(Trying(rest, !retry, SAVE_RETRIES))), trace) == View(next)
      ensures next == if !SavedInTime(env.events(rest[0].seqNo).saves) then Down
                      else if retry then Idle else Sending(rest[1..])
    {
      hide Next, RunFrom, Follows, SavedInTime;
      var alive;
      alive, trace := PersistWithRetry(rest, !retry, env);
      if !alive {
        return Down, trace;
      }
      if retry {
        isRetrying := true;
        retryingSeq := rest[0].seqNo;
        retryTimers := retryTimers + 1;
        return Idle, trace;
      }
      retries, delay, round := 0, 0, round + 1;
      return Sending(rest[1..]), trace;
    }

    /** One event that is not an address event, from the dirty bit to its outcome. */
    method SendOne(rest: seq<Notification>, env: Answers) returns (next: Phase, ghost trace: seq<Action>)
      requires rest != [] && !rest[0].newAddress
      modifies this
      ensures Follows(backoff, old(View(Sending(rest))), trace, env)
      ensures RunFrom(backoff, old(View(Sending(rest))), trace) == View(next)
      ensures next == Idle || next == Down || next == Sending(rest[1..])
    {
      hide Next;
      ghost var from := View(Sending(rest));
      var EventAnswers(out, ok, _) := env.events(rest[0].seqNo);
      SetDirtyBit(rest, out);
      FollowsSnoc(backoff, from, [], Advance(out), env);
      trace := [] + [Advance(out)];
      if !out.Committed? {
        return Idle, trace;
      }
      hide RunFrom, Follows;
      var retry := CallCallback(rest, ok);
      FollowsSnoc(backoff, from, trace, Post(ok), env);
      trace := trace + [Post(ok)];
      ghost var more;
      next, more := SettleOne(rest, retry, env);
      FollowsAppend(backoff, from, trace, more, env);
      trace := trace + more;
    }

    /** sendHTTPCallbackNotifications after its guard: the whole pass is a run of the
        machine from the first read to an idle or a stopped broker. */
    method Pass(env: Answers) returns (next: Phase, ghost trace: seq<Action>)
      modifies this
      ensures next.Idle? || next.Down?
      ensures Follows(backoff, old(View(Reading)), trace, env)
      ensures RunFrom(backoff, old(View(Reading)), trace) == View(next)
    {
      ghost var from := View(Reading);
      FollowsSnoc(backoff, from, [], Read(env.read), env);
      trace := [] + [Read(env.read)];
      if !env.read {
        HandleEarlyError();
        return Idle, trace;
      }
      var rest := UnsentEvents(lastSent);
      hide RunFrom, Follows;
      while rest != []
        invariant Follows(backoff, from, trace, env)
        invariant RunFrom(backoff, from, trace) == View(Sending(rest))
        decreases |rest|
      {
        if rest[0].newAddress {
          FollowsSnoc(backoff, from, trace, Advance(Committed), env);
          trace := trace + [Advance(Committed)];
          rest := rest[1..];
        } else {
          ghost var before := View(Sending(rest));
          ghost var more;
          next, more := SendOne(rest, env);
          FollowsAppend(backoff, from, trace, more, env);
          trace := trace + more;
          if next == Idle || next == Down {
            return;
          }
          rest := rest[1..];
        }
      }
      FollowsSnoc(backoff, from, trace, Advance(Committed), env);
      trace := trace + [Advance(Committed)];
      return Idle, trace;
    }

    /** The main loop's handling of a queued trigger. */
    method HandleTrigger(env: Answers) returns (next: Phase, ghost trace: seq<Action>)
      requires queue != []
      modifies this
      ensures next.Idle? || next.Down?
      ensures trace != [] && trace[0] == TakeTrigger
      ensures Follows(backoff, Next(backoff, old(View(Idle)), TakeTrigger), trace[1..], env)
      ensures RunFrom(backoff, old(View(Idle)), trace) == View(next)
    {
      ghost var from := View(Idle);
      OneMore(backoff, from, [], TakeTrigger);
      var isRetry := queue[0];
      queue := queue[1..];
      trace := [TakeTrigger];
      if isRetrying {
        if !isRetry {
          return Idle, trace;
        }
        isRetrying := false;
        retryingSeq := -1;
      }
      assert RunFrom(backoff, from, trace) == View(Reading);
      ghost var more;
      next, more := Pass(env);
      RunFromAppend(backoff, from, trace, more);
      trace := trace + more;
    }
  }
}
