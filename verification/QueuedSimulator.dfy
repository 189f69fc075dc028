/** The queued replay's node runtime (src/prefill_cache_sim/simulator.py:165-183, 366-519),
    with its cache object and its dictionaries updated in place.
 */
module QueuedSimulator {
  import opened Lists
  import opened Options
  import opened EvictionPolicies
  import opened NodeCache
  import opened LocalNodeCaches
  import opened QueuedReplay

  class NodeRuntime {
    const config: QueuedReplay.Config
    const cache: LocalNodeCache
    var now: real
    var queue: seq<Item>
    var running: seq<Running>
    var inflight: map<Block, real>
    var activePins: map<Block, nat>
    var waiterPins: set<Block>
    var activeRequests: int
    var activeTokens: int
    var queuedTokens: int

    ghost function St(): Node
      reads this, cache, cache.policy
    {
      Node(now, cache.St(), queue, running, inflight, activePins, waiterPins, activeRequests, activeTokens, queuedTokens)
    }

    ghost predicate Wired() { cache.capacityBlocks == config.capacityBlocks }

    constructor (config: QueuedReplay.Config, cache: LocalNodeCache)
      requires cache.capacityBlocks == config.capacityBlocks && cache.St() == Fresh(cache.policy.state)
      ensures Wired() && this.config == config && this.cache == cache && St() == Idle(cache.policy.state)
    {
      this.config, this.cache := config, cache;
      now, queue, running, inflight, activePins, waiterPins := 0.0, [], [], map[], map[], {};
      activeRequests, activeTokens, queuedTokens := 0, 0, 0;
    }

    /** Walk the queue and hand out start events while there is room. */
    method HandOutStarts()
      modifies `queue
      ensures St() == ScheduleStarts(config, old(St()))
    {
      var scheduled := CountScheduled();
      FillSlots(config.concurrency - activeRequests - scheduled);
    }

    method FillSlots(slots: int)
      modifies `queue
      ensures queue == Schedule(old(queue), slots, now)
    {
      hide Schedule;
      var was, room, i := queue, slots, 0;
      ghost var done: seq<Item> := [];
      assert was[0..] == was == done + was;
      while i < |was| && room > 0
        invariant i <= |was| && |done| == i && queue == done + was[i..]
        invariant Schedule(was, slots, now) == done + Schedule(was[i..], room, now)
        decreases |was| - i
      {
        NextSlot(was[i..], room, now);
        var item := queue[i];
        if item.start.None? {
          item := item.(start := Some(StartEvent(now, None, 0)));
          room := room - 1;
        }
        PutBack(done, was, i, item, Schedule(was[i + 1..], room, now));
        queue := queue[i := item];
        done := done + [item];
        i := i + 1;
      }
      NoSlot(was[i..], room, now);
    }

    static lemma PutBack(done: seq<Item>, was: seq<Item>, i: nat, x: Item, rest: seq<Item>)
      requires i < |was| && |done| == i
      ensures (done + was[i..])[i] == was[i] && was[i..][1..] == was[i + 1..]
      ensures (done + was[i..])[i := x] == (done + [x]) + was[i + 1..]
      ensures done + ([x] + rest) == (done + [x]) + rest
    {
    }

    static lemma NextSlot(q: seq<Item>, room: int, now: real)
      requires q != [] && room > 0
      ensures Schedule(q, room, now)
              == if q[0].start.Some? then [q[0]] + Schedule(q[1..], room, now)
                 else [q[0].(start := Some(StartEvent(now, None, 0)))] + Schedule(q[1..], room - 1, now)
    {
    }

    static lemma {:induction false} NoSlot(q: seq<Item>, room: int, now: real)
      requires q == [] || room <= 0
      ensures Schedule(q, room, now) == q
    {
    }

    method CountScheduled() returns (n: nat)
      ensures n == ScheduledCount(queue)
    {
      n := 0;
      var i := |queue|;
      while i > 0
        invariant 0 <= i <= |queue| && n == ScheduledCount(queue[i..])
      {
        i := i - 1;
        assert queue[i..][1..] == queue[i + 1..];
        if queue[i].start.Some? { n := n + 1; }
      }
    }

    method HandleArrival(r: QueuedReplay.Request, visibleHitTokens: nat, at: real)
      modifies `now, `queue, `queuedTokens
      ensures St() == OnArrival(config, old(St()), r, visibleHitTokens, at)
    {
      now := at;
      var queued := InputTokens(r) - visibleHitTokens;
      queue := queue + [Item(r, queued, None)];
      queuedTokens := queuedTokens + queued;
      HandOutStarts();
    }

    method Pin(blocks: seq<Block>)
      modifies `activePins
      ensures activePins == AddPins(old(activePins), blocks)
    {
      for i := 0 to |blocks|
        invariant activePins == AddPins(old(activePins), blocks[..i])
      {
        assert blocks[..i + 1][..i] == blocks[..i];
        activePins := activePins[blocks[i] := (if blocks[i] in activePins then activePins[blocks[i]] else 0) + 1];
      }
      assert blocks[..|blocks|] == blocks;
    }

    method Unpin(blocks: seq<Block>)
      modifies `activePins
      ensures activePins == DropPins(old(activePins), blocks)
    {
      for i := 0 to |blocks|
        invariant activePins == DropPins(old(activePins), blocks[..i])
      {
        assert blocks[..i + 1][..i] == blocks[..i];
        var b := blocks[i];
        activePins := if b in activePins && activePins[b] > 1 then activePins[b := activePins[b] - 1] else activePins - {b};
      }
      assert blocks[..|blocks|] == blocks;
    }

    method MarkInflight(blocks: seq<Block>, finish: real)
      modifies `inflight
      ensures inflight == Produce(old(inflight), blocks, finish)
    {
      for i := 0 to |blocks|
        invariant inflight == Produce(old(inflight), blocks[..i], finish)
      {
        assert blocks[..i + 1][..i] == blocks[..i];
        if blocks[i] !in inflight { inflight := inflight[blocks[i] := finish]; }
      }
      assert blocks[..|blocks|] == blocks;
    }

    method ClearInflight(blocks: seq<Block>, finish: real)
      modifies `inflight
      ensures inflight == Retire(old(inflight), blocks, finish)
    {
      for i := 0 to |blocks|
        invariant inflight == Retire(old(inflight), blocks[..i], finish)
      {
        assert blocks[..i + 1][..i] == blocks[..i];
        if blocks[i] in inflight && inflight[blocks[i]] == finish { inflight := inflight - {blocks[i]}; }
      }
      assert blocks[..|blocks|] == blocks;
    }

    /** The producers of the missed blocks, and the last of their finish times. */
    method LastFinish(missed: seq<Block>) returns (found: bool, until: real)
      ensures found <==> Awaited(inflight, missed) != {}
      ensures found ==> LastProducer(inflight, Awaited(inflight, missed), until)
    {
      found, until := false, 0.0;
      for i := 0 to |missed|
        invariant found <==> Awaited(inflight, missed[..i]) != {}
        invariant found ==> LastProducer(inflight, Awaited(inflight, missed[..i]), until)
      {
        assert missed[..i + 1] == missed[..i] + [missed[i]];
        OneMoreAwaited(inflight, missed[..i], missed[i]);
        if missed[i] in inflight {
          if !found || inflight[missed[i]] > until { until := inflight[missed[i]]; }
          found := true;
        }
      }
      assert missed[..|missed|] == missed;
    }

    static lemma OneMoreAwaited(inflight: map<Block, real>, blocks: seq<Block>, b: Block)
      ensures Awaited(inflight, blocks + [b]) == Awaited(inflight, blocks) + (if b in inflight then {b} else {})
    {
    }

    /** A pending start fires: wait for producers, or look up, pin and run. */
    method HandleStart(i: nat) returns (ghost until: real)
      requires Wired() && i < |queue| && queue[i].start.Some? && WellFormed(queue[i].request)
      modifies this, cache, cache.policy
      ensures Waits(config, old(St()), old(queue)[i].request) ==>
                && LastProducer(old(inflight), Awaited(old(inflight), old(queue)[i].request.prefix[
                     HitCount(old(cache.resident), old(queue)[i].request.prefix)..]), until)
                && St() == Wait(old(St()), i, until)
      ensures !Waits(config, old(St()), old(queue)[i].request) ==> St() == Begin(config, old(St()), i)
    {
      var r, e := queue[i].request, queue[i].start.value;
      var hits, _ := cache.Preview(r.prefix, r.sizes);
      var producing, last := LastFinish(r.prefix[hits..]);
      until := last;
      if config.visibility.InflightDedupWait? && producing {
        WaitFor(i, Awaited(inflight, r.prefix[hits..]), last);
      } else {
        RunNow(i);
      }
    }

    method WaitFor(i: nat, awaited: set<Block>, until: real)
      requires i < |queue| && queue[i].start.Some? && WellFormed(queue[i].request)
      requires awaited == Awaited(inflight, queue[i].request.prefix[HitCount(cache.resident, queue[i].request.prefix)..])
      modifies `now, `waiterPins, `queue
      ensures St() == Wait(old(St()), i, until)
    {
      var r, e := queue[i].request, queue[i].start.value;
      now := e.at;
      waiterPins := waiterPins + awaited;
      queue := queue[i := queue[i].(start := Some(StartEvent(until, Some(WaitedSince(e)),
                                                             e.waitTokens + WaitTokens(r, awaited))))];
    }

    method RunNow(i: nat)
      requires i < |queue| && queue[i].start.Some? && WellFormed(queue[i].request)
      modifies this, cache, cache.policy
      ensures St() == Begin(config, old(St()), i)
    {
      hide LookedUp; hide FinishOf; hide SumOf; hide Dequeued;
      var r, at := queue[i].request, queue[i].start.value.at;
      var lookup := cache.Lookup(r.prefix, r.sizes);
      var uncached := InputTokens(r) - lookup.hitTokens;
      var x := Running(r, lookup.hitBlocks, uncached, at, FinishOf(config, at, uncached));
      assert x == Started(config, old(St()), i);
      Dequeue(i, x);
      DequeueKeepsCache(old(St()), i, x, cache.St());
    }

    static lemma DequeueKeepsCache(s: Node, i: nat, x: Running, c: CacheState)
      requires i < |s.queue| && s.queue[i].start.Some? && x.hitBlocks <= |x.request.prefix|
      ensures Dequeued(s.(cache := c), i, x) == Dequeued(s, i, x).(cache := c)
    {
    }

    method Dequeue(i: nat, x: Running)
      requires i < |queue| && queue[i].start.Some? && x.hitBlocks <= |x.request.prefix|
      modifies this
      ensures St() == Dequeued(old(St()), i, x)
    {
      hide Produce; hide AddPins;
      var item := queue[i];
      var e := item.start.value;
      queue := queue[..i] + queue[i + 1..];
      now, queuedTokens := e.at, queuedTokens - item.queuedTokens;
      activeRequests, activeTokens := activeRequests + 1, activeTokens + x.uncached;
      if e.waitSince.Some? { waiterPins := waiterPins - Elements(x.request.prefix); }
      Pin(Hits(x));
      MarkInflight(Missed(x), x.finish);
      running := running + [x];
    }

    /** A prefill finishes: place its blocks around the pins, release its own, retire its
        in-flight entries and hand out starts. */
    method HandleFinish(j: nat)
      requires Wired() && j < |running| && running[j].hitBlocks <= |running[j].request.prefix|
      modifies this, cache, cache.policy
      ensures St() == OnFinish(config, old(St()), j)
    {
      hide ScheduleStarts;
      Finalize(j);
      HandOutStarts();
    }

    method Finalize(j: nat)
      requires Wired() && j < |running| && running[j].hitBlocks <= |running[j].request.prefix|
      modifies this, cache, cache.policy
      ensures St() == Finalized(config, old(St()), j)
    {
      hide Placed; hide DropPins; hide Retire;
      var x := running[j];
      var pinned := activePins.Keys + waiterPins;
      ghost var before := cache.St();
      now := x.finish;
      var _, _, _, _ := cache.Place(x.request.prefix, x.finish, pinned);
      PlacedIs(config.capacityBlocks, before, x.request.prefix, x.finish, pinned);
      hide PlaceAll;
      activeRequests, activeTokens := activeRequests - 1, activeTokens - x.uncached;
      running := running[..j] + running[j + 1..];
      Unpin(Hits(x));
      ClearInflight(Missed(x), x.finish);
    }

    lemma {:induction false} PlacedIs(capacity: nat, s: CacheState, prefix: seq<Block>, at: real, pinned: set<Block>)
      ensures Placed(capacity, s, prefix, at, pinned) == PlaceAll(capacity, s, prefix, at, pinned).cache
    {
    }
  }
}
