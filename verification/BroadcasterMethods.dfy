/** broadcasterWithStorage as it is written: an object whose subscriber map, low-water
    mark and channels are changed in place.  Each method is one step of module
    Broadcaster. */
module BroadcasterMethods {
  import opened Types
  import opened EventLog
  import opened Broadcaster

  /** How far a broadcast that started in `h` has come when the state is `g`. */
  ghost predicate Partly(h: Hub, g: Hub, todo: set<ChanId>) {
    && g == h.(subs := g.subs, chans := g.chans)
    && g.chans.Keys == h.chans.Keys
    && todo <= g.subs.Keys <= h.subs.Keys <= h.chans.Keys
    && (forall ch :: ch in todo ==> g.chans[ch] == h.chans[ch] && g.subs[ch] == h.subs[ch])
    && (forall ch :: ch in h.chans && ch !in todo ==>
          g.chans[ch] == if ch in h.subs then Deliver(h.log, h.chans[ch]) else h.chans[ch])
    && forall ch :: ch in h.subs && ch !in todo ==>
         && (ch in g.subs <==> !Deliver(h.log, h.chans[ch]).closed)
         && (ch in g.subs ==> g.subs[ch] == Deliver(h.log, h.chans[ch]).cursor)
  }

  lemma PartlyStart(h: Hub)
    requires Broadcaster.Inv(h)
    ensures Partly(h, h, h.subs.Keys)
  {
    hide ChannelOk, Increasing, Undelivered, Deliver;
  }

  /** A subscriber not served yet is as it was when the broadcast started. */
  lemma PartlyReady(h: Hub, g: Hub, todo: set<ChanId>, ch: ChanId)
    requires Broadcaster.Inv(h) && Partly(h, g, todo) && ch in todo
    ensures g.log == h.log && g.minSeq == h.minSeq && Increasing(g.log)
    ensures ch in g.subs && ch in g.chans && g.subs[ch] == g.chans[ch].cursor
    ensures g.minSeq <= g.subs[ch] && !g.chans[ch].closed
  {
    hide ChannelOk, Increasing, Undelivered, Deliver;
  }

  lemma PartlyStep(h: Hub, g: Hub, g': Hub, todo: set<ChanId>, ch: ChanId)
    requires Partly(h, g, todo) && ch in todo && g' == g.(subs := g'.subs, chans := g'.chans)
    requires g'.chans == g.chans[ch := Deliver(g.log, g.chans[ch])]
    requires g'.subs == if Deliver(g.log, g.chans[ch]).closed then g.subs - {ch}
                        else g.subs[ch := Deliver(g.log, g.chans[ch]).cursor]
    ensures Partly(h, g', todo - {ch})
  {
    hide Deliver;
  }

  lemma PartlyDone(h: Hub, g: Hub)
    requires Partly(h, g, {})
    ensures g.(minSeq := DeliverAll(h).minSeq) == DeliverAll(h)
  {
    hide Deliver, FromSeq, NextSeq;
    assert g.chans == DeliverAll(h).chans;
    assert g.subs == DeliverAll(h).subs;
  }

  lemma AllClosed(h: Hub, done: set<ChanId>)
    requires done <= h.subs.Keys && CloseSubs(h, done).subs == map[]
    ensures done == h.subs.Keys && CloseSubs(h, done) == Next(h, CloseAll)
  {
    ClosedKeys(h, done);
    assert CloseSubs(h, done).subs.Keys == {};
    forall ch | ch in h.subs.Keys
      ensures ch in done
    {
      assert ch !in h.subs.Keys - done;
    }
    assert done == h.subs.Keys;
  }

  lemma CloseOneMore(h: Hub, done: set<ChanId>, ch: ChanId)
    requires ch in CloseSubs(h, done).subs && done <= h.subs.Keys <= h.chans.Keys
    ensures ch in h.subs && ch in CloseSubs(h, done).chans
    ensures var g := CloseSubs(h, done);
            CloseSubs(h, done + {ch}) == g.(chans := g.chans[ch := g.chans[ch].(closed := true)], subs := g.subs - {ch})
  {
    var g := CloseSubs(h, done);
    assert CloseSubs(h, done + {ch}).chans == g.chans[ch := g.chans[ch].(closed := true)];
    assert CloseSubs(h, done + {ch}).subs == g.subs - {ch};
  }

  lemma QuietChannel(log: seq<Notification>, min: int, c: Channel)
    requires FromSeq(log, min) == [] && min <= c.cursor
    ensures Deliver(log, c) == c
  {
    SharedRead(log, min, c.cursor);
  }

  /** When the shared read is empty, so is every subscriber's own. */
  lemma NothingNew(h: Hub)
    requires Broadcaster.Inv(h) && FromSeq(h.log, h.minSeq) == []
    ensures DeliverAll(h) == h
  {
    hide Deliver, FromSeq, ChannelOk, Increasing, Undelivered;
    forall ch | ch in h.subs ensures Deliver(h.log, h.chans[ch]) == h.chans[ch] {
      QuietChannel(h.log, h.minSeq, h.chans[ch]);
    }
    assert DeliverAll(h).chans == h.chans;
    assert DeliverAll(h).subs == h.subs;
  }

  lemma ClosedKeys(h: Hub, done: set<ChanId>)
    ensures CloseSubs(h, done).subs.Keys == h.subs.Keys - done
    ensures done == {} ==> CloseSubs(h, done) == h
  {
    if done == {} {
      assert CloseSubs(h, done).chans == h.chans && CloseSubs(h, done).subs == h.subs;
    }
  }

  class BroadcasterWithStorage {
    var log: seq<Notification>
    var subs: map<ChanId, int>
    var minSeq: int
    var chans: map<ChanId, Channel>

    /** The part of the machine state this object holds, with the sender at work. */
    ghost function View(): Hub
      reads this
    {
      Hub(log, subs, minSeq, chans, 0, 0, true, {}, 0)
    }

    ghost predicate Valid()
      reads this
    {
      Broadcaster.Inv(View())
    }

    constructor ()
      ensures Valid()
      ensures log == [] && subs == map[] && minSeq == 0 && chans == map[]
    {
      log, subs, minSeq, chans := [], map[], 0, map[];
    }

    /** The first event of a read that the subscriber still wants. */
    method FirstWanted(events: seq<Notification>, from: int) returns (i: nat)
      requires Increasing(events)
      ensures i <= |events| && events[i..] == FromSeq(events, from)
    {
      i := 0;
      while i < |events| && events[i].seqNo < from
        invariant 0 <= i <= |events|
        invariant forall k :: 0 <= k < i ==> events[k].seqNo < from
      {
        i := i + 1;
      }
      SuffixIsFromSeq(events, from, i);
    }

    /** The select statement for one subscriber: queue the wanted suffix, or disconnect. */
    method DeliverTo(ch: ChanId, events: seq<Notification>, nextSeq: int)
      requires ch in subs && ch in chans && subs[ch] == chans[ch].cursor && minSeq <= subs[ch] && !chans[ch].closed
      requires Increasing(log) && events == FromSeq(log, minSeq) != []
      requires nextSeq == events[|events| - 1].seqNo + 1
      modifies this`subs, this`chans
      ensures chans == old(chans)[ch := Deliver(log, old(chans[ch]))]
      ensures subs == if Deliver(log, old(chans[ch])).closed then old(subs) - {ch}
                      else old(subs)[ch := Deliver(log, old(chans[ch])).cursor]
    {
      FromSeqShape(log, minSeq);
      var i := FirstWanted(events, subs[ch]);
      SharedRead(log, minSeq, subs[ch]);
      FromSeqShape(log, subs[ch]);
      hide FromSeq, Increasing;
      if i < |events| {
        if |chans[ch].queue| < CHANNEL_SIZE {
          chans := chans[ch := chans[ch].(queue := chans[ch].queue + [events[i..]], cursor := nextSeq)];
          subs := subs[ch := nextSeq];
        } else {
          chans := chans[ch := chans[ch].(closed := true)];
          subs := subs - {ch};
        }
      } else {
        assert chans == chans[ch := chans[ch]] && subs == subs[ch := subs[ch]];
      }
    }

    /** One shared read for all subscribers, in whatever order the map yields them, is
        the same as every subscriber reading on its own. */
    method Broadcast(storageFails: bool) returns (ok: bool)
      requires Valid()
      modifies this
      ensures Valid()
      ensures ok <==> !storageFails
      ensures ok ==> View() == DeliverAll(old(View())) && AllServed(old(View()), View())
      ensures !ok ==> View() == old(View())
    {
      if storageFails {
        return false;
      }
      ok := true;
      var events := FromSeq(log, minSeq);
      ghost var h := View();
      DeliverAllServes(h);
      if |events| == 0 {
        NothingNew(h);
        return;
      }
      var nextSeq := events[|events| - 1].seqNo + 1;
      var todo := subs.Keys;
      PartlyStart(h);
      SubsHaveChannels(h);
      assert nextSeq == DeliverAll(h).minSeq;
      hide Deliver, FromSeq, Partly, DeliverAll, Inv, Increasing, AllServed;
      while todo != {}
        invariant Partly(h, View(), todo)
        decreases todo
      {
        var ch :| ch in todo;
        ghost var g := View();
        PartlyReady(h, g, todo, ch);
        DeliverTo(ch, events, nextSeq);
        PartlyStep(h, g, View(), todo, ch);
        todo := todo - {ch};
      }
      PartlyDone(h, View());
      minSeq := nextSeq;
      DeliverAllKeeps(h);
      StillAwake(DeliverAll(h));
    }

    lemma StillAwake(h: Hub)
      requires Broadcaster.Inv(h.(busy := false)) && h.busy
      ensures Broadcaster.Inv(h)
    {
      hide ChannelOk, Increasing, Undelivered;
    }

    method StoreEvent(e: Notification)
      requires Valid() && (log != [] ==> log[|log| - 1].seqNo < e.seqNo)
      modifies this
      ensures Valid() && View() == Next(old(View()), Broadcaster.StoreEvent(e))
    {
      StoreKeeps(View(), e);
      log := log + [e];
    }

    method SubscribeFromSeq(from: int, ch: ChanId)
      requires Valid() && ch !in chans
      modifies this
      ensures Valid() && View() == Next(old(View()), Subscribe(ch, from))
    {
      SubscribeKeeps(View(), ch, from);
      chans := chans[ch := Channel(from, from, [], [], false)];
      subs := subs[ch := from];
      minSeq := Min(from, minSeq);
    }

    method Unsubscribe(ch: ChanId)
      requires Valid()
      modifies this
      ensures Valid() && View() == Next(old(View()), Broadcaster.Unsubscribe(ch))
    {
      if ch !in subs {
        return;
      }
      CloseKeeps(View(), {ch});
      ghost var h := View();
      chans := chans[ch := chans[ch].(closed := true)];
      subs := subs - {ch};
      assert chans == CloseSubs(h, {ch}).chans;
    }

    /** One subscriber is disconnected. */
    method CloseOne(ch: ChanId)
      requires ch in subs && ch in chans
      modifies this`subs, this`chans
      ensures View() == old(View()).(chans := old(chans)[ch := old(chans)[ch].(closed := true)], subs := old(subs) - {ch})
      ensures subs.Keys < old(subs.Keys)
    {
      chans := chans[ch := chans[ch].(closed := true)];
      subs := subs - {ch};
    }

    /** Close disconnects everyone, one by one. */
    method Close()
      requires Valid()
      modifies this
      ensures Valid() && View() == Next(old(View()), CloseAll) && subs == map[]
    {
      ghost var h := View();
      CloseKeeps(h, h.subs.Keys);
      ghost var done: set<ChanId> := {};
      SubsHaveChannels(h);
      ClosedKeys(h, done);
      hide CloseSubs, Inv, Next;
      while subs != map[]
        invariant View() == CloseSubs(h, done) && done <= h.subs.Keys <= h.chans.Keys
        decreases subs.Keys
      {
        var ch :| ch in subs;
        CloseOneMore(h, done, ch);
        CloseOne(ch);
        done := done + {ch};
      }
      ClosedKeys(h, done);
      AllClosed(h, done);
    }
  }
}
