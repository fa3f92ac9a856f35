/** The websocket broadcaster: one shared read of the event log for all subscribers,
    bounded channels, and the trigger that wakes the sender. */
module Broadcaster {
  import opened Types
  import opened EventLog

  type Batch = seq<Notification>

  /** A subscriber's channel with everything ever put on it. */
  datatype Channel = Channel(start: int, cursor: int, taken: seq<Batch>, queue: seq<Batch>, closed: bool)

  const CHANNEL_SIZE: nat := 10000

  // -------------------------------------------------------------- log segments

  /** The events with from <= seq < to. */
  function Segment(log: seq<Notification>, from: int, to: int): seq<Notification> {
    if log == [] then []
    else
      var last := log[|log| - 1];
      Segment(log[..|log| - 1], from, to) + if from <= last.seqNo < to then [last] else []
  }

  /** GetEventsFromSeq. */
  function FromSeq(log: seq<Notification>, from: int): seq<Notification> {
    if log == [] then []
    else
      var last := log[|log| - 1];
      FromSeq(log[..|log| - 1], from) + if from <= last.seqNo then [last] else []
  }

  /** The number after the last event, or `none` for an empty list. */
  function NextSeq(events: seq<Notification>, none: int): int {
    if events == [] then none else events[|events| - 1].seqNo + 1
  }

  function Flatten(batches: seq<Batch>): seq<Notification> {
    if batches == [] then [] else Flatten(batches[..|batches| - 1]) + batches[|batches| - 1]
  }

  lemma {:induction false} FlattenConcat(a: seq<Batch>, b: seq<Batch>)
    ensures Flatten(a + b) == Flatten(a) + Flatten(b)
  {
    if b == [] {
      assert a + b == a;
    } else {
      assert (a + b)[..|a + b| - 1] == a + b[..|b| - 1];
      FlattenConcat(a, b[..|b| - 1]);
    }
  }

  lemma FlattenSnoc(a: seq<Batch>, b: Batch)
    ensures Flatten(a + [b]) == Flatten(a) + b
  {
    assert (a + [b])[..|a|] == a;
  }

  lemma IncreasingInit(log: seq<Notification>)
    requires Increasing(log) && log != []
    ensures Increasing(log[..|log| - 1])
    ensures forall e :: e in log[..|log| - 1] ==> e.seqNo < log[|log| - 1].seqNo
  {
  }

  lemma {:induction false} SegmentAbove(log: seq<Notification>, from: int, to: int)
    requires forall e :: e in log ==> e.seqNo < from
    ensures Segment(log, from, to) == [] && FromSeq(log, from) == []
  {
    if log != [] {
      SegmentAbove(log[..|log| - 1], from, to);
    }
  }

  /** Consecutive segments join without a gap. */
  lemma {:induction false} SegmentJoin(log: seq<Notification>, a: int, b: int, c: int)
    requires Increasing(log) && a <= b <= c
    ensures Segment(log, a, b) + Segment(log, b, c) == Segment(log, a, c)
  {
    if log != [] {
      var init, last := log[..|log| - 1], log[|log| - 1];
      IncreasingInit(log);
      SegmentJoin(init, a, b, c);
      var x, y := Segment(init, a, b), Segment(init, b, c);
      if last.seqNo < b {
        SegmentAbove(init, b, c);
        assert x + [] == x && y == [];
      } else {
        assert x + (y + [last]) == (x + y) + [last] && x + [] == x && y + [] == y;
      }
    }
  }

  lemma {:induction false} FromSeqIsSegment(log: seq<Notification>, from: int, to: int)
    requires Increasing(log) && forall e :: e in log ==> e.seqNo < to
    ensures FromSeq(log, from) == Segment(log, from, to)
  {
    if log != [] {
      FromSeqIsSegment(log[..|log| - 1], from, to);
    }
  }

  /** An event later than a segment's end does not belong to it. */
  lemma SegmentOfLonger(log: seq<Notification>, e: Notification, from: int, to: int)
    requires to <= e.seqNo
    ensures Segment(log + [e], from, to) == Segment(log, from, to)
  {
    assert (log + [e])[..|log|] == log;
  }

  /** The read for one subscriber, out of a read that starts no later. */
  lemma {:induction false} SharedRead(log: seq<Notification>, min: int, from: int)
    requires min <= from
    ensures FromSeq(FromSeq(log, min), from) == FromSeq(log, from)
  {
    if log != [] {
      var init, last := log[..|log| - 1], log[|log| - 1];
      SharedRead(init, min, from);
      var r := FromSeq(init, min);
      assert r + [] == r;
      assert (r + [last])[..|r|] == r;
      if min <= last.seqNo {
        assert FromSeq(log, min) == r + [last];
      }
    }
  }

  lemma {:induction false} FromSeqMembers(log: seq<Notification>, from: int)
    ensures forall e :: e in FromSeq(log, from) <==> e in log && from <= e.seqNo
  {
    if log != [] {
      FromSeqMembers(log[..|log| - 1], from);
      assert log == log[..|log| - 1] + [log[|log| - 1]];
    }
  }

  /** A read is increasing like the log, and a non-empty one ends where the log ends. */
  lemma {:induction false} FromSeqShape(log: seq<Notification>, from: int)
    requires Increasing(log)
    ensures Increasing(FromSeq(log, from))
    ensures FromSeq(log, from) != [] ==> FromSeq(log, from)[|FromSeq(log, from)| - 1] == log[|log| - 1]
  {
    if log != [] {
      var init, last := log[..|log| - 1], log[|log| - 1];
      IncreasingInit(log);
      FromSeqShape(init, from);
      if last.seqNo < from {
        SegmentAbove(init, from, from);
      } else {
        FromSeqMembers(init, from);
        var r := FromSeq(init, from);
        assert forall e :: e in r ==> e.seqNo < last.seqNo;
        AppendLater(r, last);
      }
    }
  }

  lemma AppendLater(r: seq<Notification>, last: Notification)
    requires Increasing(r) && forall e :: e in r ==> e.seqNo < last.seqNo
    ensures Increasing(r + [last])
  {
    assert forall i :: 0 <= i < |r| ==> r[i] in r;
  }

  /** In an increasing list, the suffix from the first event that is late enough. */
  lemma {:induction false} SuffixIsFromSeq(events: seq<Notification>, from: int, i: nat)
    requires Increasing(events) && i <= |events|
    requires forall k :: 0 <= k < i ==> events[k].seqNo < from
    requires forall k :: i <= k < |events| ==> from <= events[k].seqNo
    ensures FromSeq(events, from) == events[i..]
  {
    if events != [] {
      var n := |events| - 1;
      if i <= n {
        SuffixIsFromSeq(events[..n], from, i);
        assert events[i..] == events[..n][i..] + [events[n]];
      } else {
        SegmentAbove(events, from, from);
      }
    }
  }

  // --------------------------------------------------------------- the machine

  type ChanId = nat

  /** The broadcaster, the log under it, every channel it ever made, and the sender's
      wake-up state.  The two `signalled` fields remember what the last trigger covered. */
  datatype Hub = Hub(
    log: seq<Notification>,
    subs: map<ChanId, int>,
    minSeq: int,
    chans: map<ChanId, Channel>,
    triggers: nat,
    timers: nat,
    busy: bool,
    signalledSubs: set<ChanId>,
    signalledLen: nat)

  datatype Action =
    | StoreEvent(e: Notification)
    | Subscribe(ch: ChanId, from: int)
    | Unsubscribe(ch: ChanId)
    | CloseAll
    | Consume(ch: ChanId)
    | Trigger
    | TakeTrigger
    | Broadcast(ok: bool)
    | TimerFires

  /** What a broadcast does for one subscriber that reads the log on its own. */
  function Deliver(log: seq<Notification>, c: Channel): Channel {
    var events := FromSeq(log, c.cursor);
    if events == [] then c
    else if |c.queue| < CHANNEL_SIZE then c.(queue := c.queue + [events], cursor := NextSeq(events, c.cursor))
    else c.(closed := true)
  }

  function DeliverAll(h: Hub): Hub
    requires h.subs.Keys <= h.chans.Keys
  {
    h.(chans := map ch | ch in h.chans :: if ch in h.subs then Deliver(h.log, h.chans[ch]) else h.chans[ch],
       subs := map ch | ch in h.subs && !Deliver(h.log, h.chans[ch]).closed :: Deliver(h.log, h.chans[ch]).cursor,
       minSeq := NextSeq(FromSeq(h.log, h.minSeq), h.minSeq))
  }

  function CloseSubs(h: Hub, which: set<ChanId>): Hub {
    h.(chans := map ch | ch in h.chans :: if ch in which then h.chans[ch].(closed := true) else h.chans[ch],
       subs := h.subs - which)
  }

  function Pulled(c: Channel): Channel
    requires c.queue != []
  {
    c.(taken := c.taken + [c.queue[0]], queue := c.queue[1..])
  }

  /** A non-blocking send into the trigger channel. */
  function Raised(triggers: nat): nat {
    if triggers < TRIGGER_SLOTS then triggers + 1 else triggers
  }

  function Next(h: Hub, a: Action): Hub {
    match a
    case StoreEvent(e) => h.(log := h.log + [e])
    case Subscribe(ch, from) =>
      if ch in h.chans then h
      else h.(subs := h.subs[ch := from], chans := h.chans[ch := Channel(from, from, [], [], false)],
              minSeq := Min(from, h.minSeq))
    case Unsubscribe(ch) => if ch in h.subs then CloseSubs(h, {ch}) else h
    case CloseAll => CloseSubs(h, h.subs.Keys)
    case Consume(ch) =>
      if ch in h.chans && h.chans[ch].queue != [] then h.(chans := h.chans[ch := Pulled(h.chans[ch])]) else h
    case Trigger => h.(triggers := Raised(h.triggers), signalledSubs := h.subs.Keys, signalledLen := |h.log|)
    case TakeTrigger => if h.triggers > 0 && !h.busy then h.(triggers := h.triggers - 1, busy := true) else h
    case Broadcast(ok) =>
      if !h.busy then h
      else if ok && h.subs.Keys <= h.chans.Keys then DeliverAll(h).(busy := false)
      else h.(busy := false, timers := h.timers + 1)
    case TimerFires => if h.timers > 0 then h.(timers := h.timers - 1, triggers := Raised(h.triggers)) else h
  }

  /** Sequence numbers grow in the order events become visible. */
  predicate Legal(h: Hub, a: Action) {
    a.StoreEvent? && h.log != [] ==> h.log[|h.log| - 1].seqNo < a.e.seqNo
  }

  function Empty(): Hub {
    Hub([], map[], 0, map[], 0, 0, false, {}, 0)
  }

  function Run(actions: seq<Action>): Hub {
    if actions == [] then Empty() else Next(Run(actions[..|actions| - 1]), actions[|actions| - 1])
  }

  predicate LegalRun(actions: seq<Action>) {
    actions != [] ==>
      LegalRun(actions[..|actions| - 1]) && Legal(Run(actions[..|actions| - 1]), actions[|actions| - 1])
  }

  // ------------------------------------------------------------- the invariant

  function Everything(c: Channel): seq<Notification> {
    Flatten(c.taken + c.queue)
  }

  /** What was put on the channel is the log from its start up to its cursor, and every
      event still to come lies at or above the cursor. */
  predicate ChannelOk(log: seq<Notification>, c: Channel) {
    && c.start <= c.cursor
    && Everything(c) == Segment(log, c.start, c.cursor)
    && (c.cursor == c.start || (log != [] && c.cursor <= log[|log| - 1].seqNo + 1))
  }

  ghost predicate SubsOk(h: Hub) {
    forall ch :: ch in h.subs ==>
      ch in h.chans && !h.chans[ch].closed && h.subs[ch] == h.chans[ch].cursor && h.minSeq <= h.subs[ch]
  }

  /** An event the last trigger covered and this subscriber has not got yet. */
  ghost predicate Undelivered(h: Hub, ch: ChanId) {
    && ch in h.subs && ch in h.signalledSubs
    && exists k :: 0 <= k < h.signalledLen <= |h.log| && h.log[k].seqNo >= h.subs[ch]
  }

  ghost predicate Awake(h: Hub) {
    h.triggers > 0 || h.timers > 0 || h.busy
  }

  ghost predicate Inv(h: Hub) {
    && Increasing(h.log)
    && SubsOk(h)
    && (forall ch :: ch in h.chans ==> ChannelOk(h.log, h.chans[ch]))
    && h.signalledLen <= |h.log|
    && h.signalledSubs <= h.chans.Keys
    && ((exists ch :: Undelivered(h, ch)) ==> Awake(h))
  }

  lemma StoreKeepsChannel(log: seq<Notification>, e: Notification, c: Channel)
    requires ChannelOk(log, c) && (log != [] ==> log[|log| - 1].seqNo < e.seqNo)
    ensures ChannelOk(log + [e], c)
  {
    if c.cursor == c.start {
      EmptySegment(log, c.start);
      EmptySegment(log + [e], c.start);
    } else {
      SegmentOfLonger(log, e, c.start, c.cursor);
    }
  }

  lemma {:induction false} EmptySegment(log: seq<Notification>, at: int)
    ensures Segment(log, at, at) == []
  {
    if log != [] {
      EmptySegment(log[..|log| - 1], at);
    }
  }

  lemma IncreasingSnoc(log: seq<Notification>, e: Notification)
    requires Increasing(log) && (log != [] ==> log[|log| - 1].seqNo < e.seqNo)
    ensures Increasing(log + [e])
  {
  }

  /** One delivery extends a channel by exactly the missing part of the log. */
  lemma DeliverKeeps(log: seq<Notification>, c: Channel)
    requires Increasing(log) && ChannelOk(log, c)
    ensures ChannelOk(log, Deliver(log, c))
    ensures !Deliver(log, c).closed && !c.closed ==>
              && Everything(Deliver(log, c)) == FromSeq(log, c.start)
              && forall e :: e in log ==> e.seqNo < Deliver(log, c).cursor
    ensures Deliver(log, c).start == c.start && c.cursor <= Deliver(log, c).cursor
  {
    hide FromSeq, Segment, Flatten;
    var events := FromSeq(log, c.cursor);
    var end := NextSeq(events, c.cursor);
    DeliverEnd(log, c.cursor);
    FromSeqIsSegment(log, c.cursor, end);
    FromSeqIsSegment(log, c.start, end);
    SegmentJoin(log, c.start, c.cursor, end);
    hide Increasing;
    if events != [] && |c.queue| < CHANNEL_SIZE {
      assert c.taken + (c.queue + [events]) == c.taken + c.queue + [events];
      FlattenSnoc(c.taken + c.queue, events);
    } else if events == [] {
      assert Everything(c) + [] == Everything(c);
    }
  }

  /** The cursor after a read is beyond every logged event. */
  lemma DeliverEnd(log: seq<Notification>, cursor: int)
    requires Increasing(log)
    ensures var end := NextSeq(FromSeq(log, cursor), cursor);
      && cursor <= end && (forall e :: e in log ==> e.seqNo < end)
      && (FromSeq(log, cursor) != [] ==> log != [] && end <= log[|log| - 1].seqNo + 1)
  {
    hide FromSeq;
    var events := FromSeq(log, cursor);
    FromSeqMembers(log, cursor);
    FromSeqShape(log, cursor);
    if events != [] {
      assert events[|events| - 1] in events;
      assert forall k :: 0 <= k < |log| ==> log[k].seqNo <= log[|log| - 1].seqNo;
    }
  }

  lemma ConsumeKeeps(log: seq<Notification>, c: Channel)
    requires ChannelOk(log, c) && c.queue != []
    ensures ChannelOk(log, Pulled(c))
  {
    assert c.taken + [c.queue[0]] + c.queue[1..] == c.taken + c.queue;
  }

  lemma SameSignals(h: Hub, h': Hub)
    requires h'.signalledSubs == h.signalledSubs && h'.signalledLen == h.signalledLen <= |h.log|
    requires h.log <= h'.log
    requires forall ch :: ch in h'.subs && ch in h'.signalledSubs ==> ch in h.subs && h'.subs[ch] == h.subs[ch]
    ensures (exists ch :: Undelivered(h', ch)) ==> exists ch :: Undelivered(h, ch)
  {
    if ch :| Undelivered(h', ch) {
      var k :| 0 <= k < h'.signalledLen <= |h'.log| && h'.log[k].seqNo >= h'.subs[ch];
      assert h.log[k] == h'.log[k];
      assert Undelivered(h, ch);
    }
  }

  lemma NothingUndelivered(h: Hub)
    requires forall ch, e :: ch in h.subs && e in h.log ==> e.seqNo < h.subs[ch]
    ensures forall ch :: !Undelivered(h, ch)
  {
  }

  /** After a delivery a live channel has the whole log from its start on. */
  ghost predicate CaughtUp(log: seq<Notification>, c: Channel) {
    Everything(c) == FromSeq(log, c.start) && forall e :: e in log ==> e.seqNo < c.cursor
  }

  ghost predicate Delivered(log: seq<Notification>, c: Channel, d: Channel) {
    && ChannelOk(log, d)
    && c.cursor <= d.cursor
    && (!d.closed && !c.closed ==> CaughtUp(log, d))
  }

  lemma DeliverAllChannels(h: Hub)
    requires Inv(h)
    ensures forall ch :: ch in h.chans ==> Delivered(h.log, h.chans[ch], Deliver(h.log, h.chans[ch]))
  {
    forall ch | ch in h.chans ensures Delivered(h.log, h.chans[ch], Deliver(h.log, h.chans[ch])) {
      hide Deliver, FromSeq, Everything, Segment;
      DeliverKeeps(h.log, h.chans[ch]);
    }
  }

  lemma DeliverAllKeeps(h: Hub)
    requires Inv(h)
    ensures var h' := DeliverAll(h).(busy := false);
            && Inv(h')
            && forall ch :: ch in h'.subs ==> CaughtUp(h.log, h'.chans[ch])
  {
    hide ChannelOk, Deliver, Everything, FromSeq, NextSeq, Increasing;
    var h' := DeliverAll(h).(busy := false);
    DeliverAllChannels(h);
    forall ch | ch in h'.subs ensures CaughtUp(h.log, h'.chans[ch]) && h.subs[ch] <= h'.subs[ch] == h'.chans[ch].cursor {
      assert Delivered(h.log, h.chans[ch], h'.chans[ch]);
    }
    forall ch | ch in h'.chans ensures ChannelOk(h'.log, h'.chans[ch]) {
      assert Delivered(h.log, h.chans[ch], Deliver(h.log, h.chans[ch]));
    }
    NothingUndelivered(h');
    hide Undelivered;
    SharedEnd(h, h');
  }

  /** The shared low-water mark stays at or below every cursor. */
  lemma SharedEnd(h: Hub, h': Hub)
    requires Inv(h) && h'.subs.Keys <= h.subs.Keys
    requires h'.minSeq == NextSeq(FromSeq(h.log, h.minSeq), h.minSeq)
    requires forall ch :: ch in h'.subs ==> h.subs[ch] <= h'.subs[ch] && forall e :: e in h.log ==> e.seqNo < h'.subs[ch]
    ensures forall ch :: ch in h'.subs ==> h'.minSeq <= h'.subs[ch]
  {
    FromSeqMembers(h.log, h.minSeq);
    FromSeqShape(h.log, h.minSeq);
    var events := FromSeq(h.log, h.minSeq);
    if events != [] {
      assert events[|events| - 1] in events;
    }
  }

  lemma StoreKeeps(h: Hub, e: Notification)
    requires Inv(h) && Legal(h, StoreEvent(e))
    ensures Inv(Next(h, StoreEvent(e)))
  {
    var h' := Next(h, StoreEvent(e));
    IncreasingSnoc(h.log, e);
    forall ch | ch in h.chans ensures ChannelOk(h'.log, h.chans[ch]) {
      StoreKeepsChannel(h.log, e, h.chans[ch]);
    }
    hide ChannelOk, Undelivered;
    SameSignals(h, h');
  }

  lemma FreshChannel(log: seq<Notification>, from: int)
    ensures ChannelOk(log, Channel(from, from, [], [], false))
  {
    EmptySegment(log, from);
  }

  lemma ClosedChannel(log: seq<Notification>, c: Channel)
    requires ChannelOk(log, c)
    ensures ChannelOk(log, c.(closed := true))
  {
  }

  lemma SubscribeKeeps(h: Hub, ch: ChanId, from: int)
    requires Inv(h) && ch !in h.chans
    ensures Inv(Next(h, Subscribe(ch, from)))
  {
    hide ChannelOk, Undelivered, Increasing;
    var h' := Next(h, Subscribe(ch, from));
    FreshChannel(h.log, from);
    SameSignals(h, h');
  }

  lemma CloseKeeps(h: Hub, which: set<ChanId>)
    requires Inv(h)
    ensures Inv(CloseSubs(h, which))
  {
    hide ChannelOk, Undelivered, Increasing;
    var h' := CloseSubs(h, which);
    forall ch | ch in h'.chans ensures ChannelOk(h.log, h'.chans[ch]) {
      ClosedChannel(h.log, h.chans[ch]);
    }
    SameSignals(h, h');
  }

  lemma ConsumeStep(h: Hub, ch: ChanId)
    requires Inv(h) && ch in h.chans && h.chans[ch].queue != []
    ensures Inv(h.(chans := h.chans[ch := Pulled(h.chans[ch])]))
  {
    hide ChannelOk, Undelivered, Increasing;
    var h' := h.(chans := h.chans[ch := Pulled(h.chans[ch])]);
    ConsumeKeeps(h.log, h.chans[ch]);
    SameSignals(h, h');
  }

  /** Triggers, timers and the sender's turn. */
  lemma WakeKeeps(h: Hub, a: Action)
    requires Inv(h) && (a.Trigger? || a.TakeTrigger? || a.TimerFires? || (a.Broadcast? && !a.ok))
    ensures Inv(Next(h, a))
  {
    hide ChannelOk, Increasing, Undelivered;
    var h' := Next(h, a);
    if !Awake(h') {
      SameSignals(h, h');
    }
  }

  lemma StepKeeps(h: Hub, a: Action)
    requires Inv(h) && Legal(h, a)
    ensures Inv(Next(h, a))
  {
    hide Inv, DeliverAll, CloseSubs, Pulled, Legal;
    match a
    case StoreEvent(e) => StoreKeeps(h, e);
    case Subscribe(ch, from) => if ch !in h.chans { SubscribeKeeps(h, ch, from); }
    case Unsubscribe(ch) => CloseKeeps(h, {ch});
    case CloseAll => CloseKeeps(h, h.subs.Keys);
    case Consume(ch) => if ch in h.chans && h.chans[ch].queue != [] { ConsumeStep(h, ch); }
    case Trigger => WakeKeeps(h, a);
    case TakeTrigger => WakeKeeps(h, a);
    case Broadcast(ok) =>
      SubsHaveChannels(h);
      if ok { DeliverAllKeeps(h); } else { WakeKeeps(h, a); }
    case TimerFires => WakeKeeps(h, a);
  }

  lemma SubsHaveChannels(h: Hub)
    requires Inv(h)
    ensures h.subs.Keys <= h.chans.Keys
  {
  }

  lemma {:induction false} RunKeeps(actions: seq<Action>)
    requires LegalRun(actions)
    ensures Inv(Run(actions))
  {
    if actions != [] {
      hide Inv, Next, Legal;
      RunKeeps(actions[..|actions| - 1]);
      StepKeeps(Run(actions[..|actions| - 1]), actions[|actions| - 1]);
    }
  }

  // ------------------------------------------------------------- the theorems

  /** A state some legal interleaving ends in. */
  ghost predicate Reachable(h: Hub) {
    exists actions :: LegalRun(actions) && h == Run(actions)
  }

  lemma ReachableInv(h: Hub)
    requires Reachable(h)
    ensures Inv(h)
  {
    hide Inv, Run, LegalRun;
    var actions :| LegalRun(actions) && h == Run(actions);
    RunKeeps(actions);
  }

  /** In every interleaving, the batches put on any channel, live or disconnected, join to
      exactly the log from the subscriber's start up to its cursor. */
  lemma ChannelsCarryLogSegments(h: Hub, ch: ChanId)
    requires Reachable(h) && ch in h.chans
    ensures var c := h.chans[ch];
      && Flatten(c.taken + c.queue) == Segment(h.log, c.start, c.cursor)
      && (ch in h.subs ==> h.subs[ch] == c.cursor && h.minSeq <= c.cursor)
  {
    ReachableInv(h);
    hide Reachable, Segment, Flatten;
    assert ChannelOk(h.log, h.chans[ch]);
  }

  /** After a successful broadcast every surviving subscriber has the whole log from its start on. */
  lemma BroadcastCatchesUp(h: Hub, ch: ChanId)
    requires Reachable(h) && h.busy && ch in Next(h, Broadcast(true)).subs
    ensures var h' := Next(h, Broadcast(true));
      ch in h'.chans && Flatten(h'.chans[ch].taken + h'.chans[ch].queue) == FromSeq(h'.log, h'.chans[ch].start)
  {
    hide Reachable, Flatten, FromSeq, Deliver, Inv, NextSeq;
    ReachableInv(h);
    SubsHaveChannels(h);
    DeliverAllKeeps(h);
    assert CaughtUp(h.log, DeliverAll(h).chans[ch]);
  }

  /** An event that was signalled and not yet delivered to a subscriber the signal
      covered leaves a queued trigger, a running timer or a broadcast under way. */
  lemma NoLostWakeUp(h: Hub, ch: ChanId, k: nat)
    requires Reachable(h) && ch in h.subs && ch in h.signalledSubs && k < h.signalledLen
    ensures h.signalledLen <= |h.log|
    ensures h.log[k].seqNo >= h.subs[ch] ==> h.triggers > 0 || h.timers > 0 || h.busy
  {
    ReachableInv(h);
    hide Reachable;
    if h.log[k].seqNo >= h.subs[ch] {
      assert Undelivered(h, ch);
    }
  }

  /** Some logged event is at or above the cursor. */
  ghost predicate SomethingNew(log: seq<Notification>, cursor: int) {
    exists e :: e in log && e.seqNo >= cursor
  }

  /** What a successful broadcast does for one subscriber, given its channel before: with
      fewer than 10000 unread batches it gets one more, holding exactly the new events in
      order; with that many it is disconnected; with nothing new it is left alone. */
  ghost predicate Served(log: seq<Notification>, c: Channel, c': Channel) {
    && (SomethingNew(log, c.cursor) && |c.queue| < 10000 ==>
          && |c'.queue| == |c.queue| + 1 && c'.queue[..|c.queue|] == c.queue
          && Increasing(c'.queue[|c.queue|])
          && (forall e :: e in c'.queue[|c.queue|] <==> e in log && e.seqNo >= c.cursor)
          && c' == c.(queue := c'.queue, cursor := log[|log| - 1].seqNo + 1))
    && (SomethingNew(log, c.cursor) && |c.queue| >= 10000 ==> c' == c.(closed := true))
    && (!SomethingNew(log, c.cursor) ==> c' == c)
  }

  lemma DeliverServes(log: seq<Notification>, c: Channel)
    requires Increasing(log)
    ensures Served(log, c, Deliver(log, c))
    ensures SomethingNew(log, c.cursor) <==> FromSeq(log, c.cursor) != []
  {
    hide FromSeq;
    FromSeqMembers(log, c.cursor);
    FromSeqShape(log, c.cursor);
    var events := FromSeq(log, c.cursor);
    if events != [] {
      assert events[0] in events;
      LastIsRead(log, c.cursor);
    }
  }

  /** A non-empty read ends with the last event of the log. */
  lemma LastIsRead(log: seq<Notification>, from: int)
    requires Increasing(log) && FromSeq(log, from) != []
    ensures log != [] && NextSeq(FromSeq(log, from), from) == log[|log| - 1].seqNo + 1
  {
    FromSeqMembers(log, from);
    FromSeqShape(log, from);
    hide FromSeq;
    var events := FromSeq(log, from);
    assert events[|events| - 1] in events;
    var k :| 0 <= k < |log| && log[k] == events[|events| - 1];
    assert log[|log| - 1].seqNo >= log[k].seqNo;
    assert log[|log| - 1] in events;
    var j :| 0 <= j < |events| && events[j] == log[|log| - 1];
  }

  /** Every subscriber was served, and who stays is who was not too far behind. */
  ghost predicate AllServed(h: Hub, h': Hub) {
    && h'.log == h.log && h'.chans.Keys == h.chans.Keys && h'.subs.Keys <= h.subs.Keys <= h.chans.Keys
    && (forall ch :: ch in h.subs ==>
          && (ch in h'.subs <==> |h.chans[ch].queue| < 10000 || !SomethingNew(h.log, h.subs[ch]))
          && Served(h.log, h.chans[ch], h'.chans[ch])
          && (ch in h'.subs ==> h'.subs[ch] == h'.chans[ch].cursor))
    && (forall ch :: ch in h.chans && ch !in h.subs ==> h'.chans[ch] == h.chans[ch])
  }

  lemma DeliverAllServes(h: Hub)
    requires Inv(h)
    ensures h.subs.Keys <= h.chans.Keys && AllServed(h, DeliverAll(h))
  {
    SubsHaveChannels(h);
    HubIncreasing(h);
    forall ch | ch in h.subs
      ensures !h.chans[ch].closed && h.subs[ch] == h.chans[ch].cursor
      ensures Served(h.log, h.chans[ch], Deliver(h.log, h.chans[ch]))
      ensures Deliver(h.log, h.chans[ch]).closed <==>
                !(|h.chans[ch].queue| < 10000 || !SomethingNew(h.log, h.subs[ch]))
    {
      OpenChannel(h, ch);
      DeliverServes(h.log, h.chans[ch]);
    }
    hide Inv, Deliver, Served, SomethingNew, FromSeq;
  }

  lemma HubIncreasing(h: Hub)
    requires Inv(h)
    ensures Increasing(h.log)
  {
  }

  lemma OpenChannel(h: Hub, ch: ChanId)
    requires Inv(h) && ch in h.subs
    ensures ch in h.chans && !h.chans[ch].closed && h.subs[ch] == h.chans[ch].cursor
  {
  }

  /** After a successful broadcast a subscriber is still subscribed if and only if it had
      fewer than 10000 unread batches or there was nothing new for it. */
  lemma StaysSubscribedIff(h: Hub, ch: ChanId)
    requires Reachable(h) && h.busy && ch in h.subs
    ensures var h' := Next(h, Broadcast(true));
      && AllServed(h, h')
      && (ch in h'.subs <==> |h.chans[ch].queue| < 10000 || forall e :: e in h.log ==> e.seqNo < h.subs[ch])
  {
    hide Reachable, Inv, Served, DeliverAll, FromSeq;
    ReachableInv(h);
    SubsHaveChannels(h);
    DeliverAllServes(h);
    var h' := Next(h, Broadcast(true));
    assert h' == DeliverAll(h).(busy := false);
    ServedAlike(h, DeliverAll(h), h');
  }

  lemma ServedAlike(h: Hub, g: Hub, h': Hub)
    requires AllServed(h, g) && h' == g.(busy := h'.busy)
    ensures AllServed(h, h')
  {
    hide Served, SomethingNew;
  }

  // ------------------------------------------- what a subscriber gets over a run

  /** A new subscriber waits for everything from the number it asked for; the others stay. */
  lemma SubscribeOutcome(h: Hub, ch: ChanId, from: int)
    requires ch !in h.chans
    ensures var h' := Next(h, Subscribe(ch, from));
      && h'.subs == h.subs[ch := from] && h'.chans == h.chans[ch := h'.chans[ch]]
      && h'.chans[ch].taken == h'.chans[ch].queue == [] && !h'.chans[ch].closed
      && h'.minSeq <= from && h'.minSeq <= h.minSeq && (h'.minSeq == from || h'.minSeq == h.minSeq)
      && h'.log == h.log && h'.triggers == h.triggers
  {
  }

  /** Unsubscribing closes one channel, once, and leaves the others alone; closing the
      broadcaster closes every subscriber's. */
  lemma CloseOutcome(h: Hub, ch: ChanId)
    requires h.subs.Keys <= h.chans.Keys
    ensures ch !in h.subs ==> Next(h, Unsubscribe(ch)) == h
    ensures ch in h.subs ==>
              var h' := Next(h, Unsubscribe(ch));
              && h'.subs == h.subs - {ch} && h'.chans == h.chans[ch := h.chans[ch].(closed := true)]
    ensures var h' := Next(h, CloseAll);
      && h'.subs == map[] && h'.chans.Keys == h.chans.Keys
      && forall c :: c in h.chans ==>
           h'.chans[c] == if c in h.subs then h.chans[c].(closed := true) else h.chans[c]
  {
    assert ch in h.subs ==> Next(h, Unsubscribe(ch)).chans == h.chans[ch := h.chans[ch].(closed := true)];
    assert Next(h, CloseAll).subs.Keys == {};
  }

  /** A client takes the oldest unread batch. */
  lemma ConsumeOutcome(h: Hub, ch: ChanId)
    requires ch in h.chans && h.chans[ch].queue != []
    ensures var c, h' := h.chans[ch], Next(h, Consume(ch));
      h' == h.(chans := h.chans[ch := c.(taken := c.taken + [c.queue[0]], queue := c.queue[1..])])
  {
  }

  lemma StartStays(h: Hub, a: Action, ch: ChanId)
    requires ch in h.chans
    ensures ch in Next(h, a).chans && Next(h, a).chans[ch].start == h.chans[ch].start
  {
    hide FromSeq, NextSeq;
  }

  lemma {:induction false} StartIsKept(before: seq<Action>, ch: ChanId, from: int, after: seq<Action>)
    requires ch !in Run(before).chans
    ensures var h := Run(before + [Subscribe(ch, from)] + after); ch in h.chans && h.chans[ch].start == from
  {
    var head := before + [Subscribe(ch, from)];
    if after == [] {
      assert head + after == head && head[..|before|] == before;
    } else {
      var init := after[..|after| - 1];
      StartIsKept(before, ch, from, init);
      assert (head + after)[..|head + after| - 1] == head + init;
      hide Next;
      StartStays(Run(head + init), after[|after| - 1], ch);
    }
  }

  lemma {:induction false} SegmentMembers(log: seq<Notification>, from: int, to: int)
    requires Increasing(log)
    ensures Increasing(Segment(log, from, to))
    ensures forall e :: e in Segment(log, from, to) <==> e in log && from <= e.seqNo < to
  {
    if log != [] {
      var init, last := log[..|log| - 1], log[|log| - 1];
      IncreasingInit(log);
      SegmentMembers(init, from, to);
      assert log == init + [last];
      if from <= last.seqNo < to {
        AppendLater(Segment(init, from, to), last);
      }
    }
  }

  /** In every run, what a subscriber got are the logged events from the number it asked
      for up to its cursor, each once and in order; right after a successful broadcast that
      leaves it subscribed, these are all of them. */
  lemma SubscriberGetsWhatItAskedFor(before: seq<Action>, ch: ChanId, from: int, after: seq<Action>)
    requires LegalRun(before + [Subscribe(ch, from)] + after) && ch !in Run(before).chans
    ensures var h := Run(before + [Subscribe(ch, from)] + after);
      && ch in h.chans
      && var c := h.chans[ch];
         var got := Flatten(c.taken + c.queue);
         && Increasing(got)
         && (forall e :: e in got <==> e in h.log && from <= e.seqNo < c.cursor)
         && (h.busy && ch in Next(h, Broadcast(true)).subs ==>
               forall e :: e in h.log ==> e.seqNo < Next(h, Broadcast(true)).chans[ch].cursor)
  {
    hide Next, LegalRun, Inv, Run, Segment, Flatten;
    var all := before + [Subscribe(ch, from)] + after;
    RunKeeps(all);
    StartIsKept(before, ch, from, after);
    GotSegment(Run(all), ch);
    if Run(all).busy && ch in Next(Run(all), Broadcast(true)).subs {
      CaughtUpAfter(Run(all), ch);
    }
  }

  lemma GotSegment(h: Hub, ch: ChanId)
    requires Inv(h) && ch in h.chans
    ensures var c := h.chans[ch];
      var got := Flatten(c.taken + c.queue);
      Increasing(got) && forall e :: e in got <==> e in h.log && c.start <= e.seqNo < c.cursor
  {
    hide Segment, Flatten, Undelivered;
    var c := h.chans[ch];
    assert ChannelOk(h.log, c);
    SegmentMembers(h.log, c.start, c.cursor);
  }

  lemma CaughtUpAfter(h: Hub, ch: ChanId)
    requires Inv(h) && h.busy && ch in Next(h, Broadcast(true)).subs
    ensures ch in Next(h, Broadcast(true)).chans
    ensures forall e :: e in h.log ==> e.seqNo < Next(h, Broadcast(true)).chans[ch].cursor
  {
    hide Flatten, FromSeq, Deliver, Inv, NextSeq;
    SubsHaveChannels(h);
    DeliverAllKeeps(h);
    assert CaughtUp(h.log, DeliverAll(h).chans[ch]);
  }

  /** The trigger channel takes a signal while fewer than three are queued; one is enough. */
  lemma TriggerOutcome(h: Hub)
    ensures Next(h, Trigger).triggers == (if h.triggers < 3 then h.triggers + 1 else h.triggers)
    ensures h.timers > 0 ==>
              Next(h, TimerFires)
              == h.(timers := h.timers - 1, triggers := if h.triggers < 3 then h.triggers + 1 else h.triggers)
    ensures h.busy ==> Next(h, Broadcast(false)) == h.(busy := false, timers := h.timers + 1)
    ensures h.triggers > 0 && !h.busy ==> Next(h, TakeTrigger) == h.(triggers := h.triggers - 1, busy := true)
  {
  }
}
