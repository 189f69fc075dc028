/** How long queued prefills take and whom they keep out
    (src/prefill_cache_sim/simulator.py:366-519).
 */
module QueuedTimes {
  import opened Lists
  import opened Options
  import opened EvictionPolicies
  import opened NodeCache
  import opened QueuedReplay

  /** Total size of the blocks from position `n` on. */
  function TokensFrom(sizes: seq<nat>, n: nat): nat
    requires n <= |sizes|
    decreases |sizes| - n
  {
    if n == |sizes| then 0 else sizes[n] + TokensFrom(sizes, n + 1)
  }

  lemma SumOfNext(sizes: seq<nat>, n: nat)
    requires n < |sizes|
    ensures SumOf(sizes[..n + 1]) == SumOf(sizes[..n]) + sizes[n]
  {
    assert sizes[..n + 1][..n] == sizes[..n];
  }

  lemma {:induction false} SumSplits(sizes: seq<nat>, n: nat)
    requires n <= |sizes|
    ensures SumOf(sizes) == SumOf(sizes[..n]) + TokensFrom(sizes, n)
    decreases |sizes| - n
  {
    hide SumOf;
    if n == |sizes| {
      assert sizes[..n] == sizes;
    } else {
      SumOfNext(sizes, n);
      SumSplits(sizes, n + 1);
    }
  }

  lemma NothingSums()
    ensures SumOf([]) == 0
  {
  }

  /** A prompt of blocks is as long as its blocks together. */
  lemma PromptLength(r: Request)
    ensures InputTokens(r) == TokensFrom(r.sizes, 0)
  {
    SumSplits(r.sizes, 0);
    NothingSums();
  }

  /** The first `n` blocks are resident, and the next one, if any, is not. */
  ghost predicate LeadingResident(resident: set<Block>, prefix: seq<Block>, n: nat) {
    && n <= |prefix| && (forall i :: 0 <= i < n ==> prefix[i] in resident)
    && (n < |prefix| ==> prefix[n] !in resident)
  }

  /** From its start to its finish a prefill works off the blocks behind the hits, `tokenMs` a token. */
  ghost predicate WorksOff(c: Config, x: Running) {
    && x.hitBlocks <= |x.request.sizes|
    && x.uncached == TokensFrom(x.request.sizes, x.hitBlocks)
    && x.finish - x.startedAt == TokensFrom(x.request.sizes, x.hitBlocks) as real * c.tokenMs
  }

  /** A start that need not wait puts one prefill on the node: the queue's own request, from the
      start's instant on, behind the `n` leading resident blocks. */
  lemma {:induction false} PrefillTakesItsTokens(c: Config, s: Node, i: nat, n: nat)
    requires i < |s.queue| && s.queue[i].start.Some? && WellFormed(s.queue[i].request)
    requires LeadingResident(s.cache.resident, s.queue[i].request.prefix, n)
    ensures var t, r := Begin(c, s, i), s.queue[i].request;
            var x := Started(c, s, i);
            && t.running == s.running + [x] && t.queue == s.queue[..i] + s.queue[i + 1..]
            && x.request == r && x.hitBlocks == n && x.startedAt == s.queue[i].start.value.at == t.now
            && WorksOff(c, x)
            && t.queuedTokens == s.queuedTokens - s.queue[i].queuedTokens
            && t.activeTokens == s.activeTokens + TokensFrom(r.sizes, n)
  {
    hide Produce; hide AddPins; hide LookedUp; hide SumOf; hide TokensFrom; hide HitCount;
    var r := s.queue[i].request;
    HitCountIs(s.cache.resident, r.prefix, n);
    SumSplits(r.sizes, n);
  }

  lemma {:induction false} OneOfThem(sizes: seq<nat>, n: nat, j: nat)
    requires n <= j < |sizes|
    ensures TokensFrom(sizes, n) >= sizes[j]
    decreases j
  {
    if n < j { LaterTokens(sizes, n, j); }
  }

  lemma {:induction false} LaterTokens(sizes: seq<nat>, n: nat, j: nat)
    requires n <= j <= |sizes|
    ensures TokensFrom(sizes, n) >= TokensFrom(sizes, j)
    decreases j - n
  {
    if n < j { LaterTokens(sizes, n + 1, j); }
  }

  /** A missed block with tokens in it takes time. */
  lemma MissesTakeTime(c: Config, x: Running, j: nat)
    requires WorksOff(c, x) && c.tokenMs > 0.0 && x.hitBlocks <= j < |x.request.sizes| && x.request.sizes[j] > 0
    ensures x.finish > x.startedAt
  {
    hide TokensFrom;
    OneOfThem(x.request.sizes, x.hitBlocks, j);
    Positive(TokensFrom(x.request.sizes, x.hitBlocks), c.tokenMs);
  }

  lemma Positive(n: nat, x: real)
    requires n > 0 && x > 0.0
    ensures n as real * x > 0.0
  {
  }

  // --- over whole runs ------------------------------------------------------

  /** A prefill of the later state was there before, or it is the one that begins. */
  lemma BeginsOrWasThere(c: Config, s: Node, e: Event, x: Running)
    requires CanHappen(c, s, e) && x in Happens(c, s, e).running && x !in s.running
    ensures e.Starts? && !Waits(c, s, s.queue[e.index].request) && x == Started(c, s, e.index)
    ensures Happens(c, s, e).running == s.running + [x]
  {
    hide Waits; hide Schedule; hide LastProducer; hide Awaited; hide WaitTokens; hide Produce; hide AddPins; hide Started;
    hide LookedUp; hide Placed; hide Retire; hide DropPins;
  }

  lemma StartedWorksOff(c: Config, s: Node, i: nat)
    requires i < |s.queue| && s.queue[i].start.Some? && WellFormed(s.queue[i].request)
    ensures WorksOff(c, Started(c, s, i)) && Started(c, s, i).startedAt == s.queue[i].start.value.at
  {
    hide WorksOff; hide Started;
    var n := HitCount(s.cache.resident, s.queue[i].request.prefix);
    PrefillTakesItsTokens(c, s, i, n);
  }

  /** In every state of every run each prefill on the node takes exactly its tokens' time. */
  lemma {:induction false} EveryPrefillWorksOff(c: Config, policy: Policy, states: seq<Node>, events: seq<Event>, n: nat)
    requires IsRun(c, states, events) && states[0] == Idle(policy) && n < |states|
    ensures forall x :: x in states[n].running ==> WorksOff(c, x)
  {
    hide CanHappen; hide Happens; hide WorksOff;
    if n > 0 {
      EveryPrefillWorksOff(c, policy, states, events, n - 1);
      var s, e := states[n - 1], events[n - 1];
      forall x | x in states[n].running ensures WorksOff(c, x) {
        if x !in s.running {
          BeginsOrWasThere(c, s, e, x);
          StartIsReady(c, s, e);
          StartedWorksOff(c, s, e.index);
        }
      }
    }
  }

  lemma StartIsReady(c: Config, s: Node, e: Event)
    requires CanHappen(c, s, e) && e.Starts?
    ensures e.index < |s.queue| && s.queue[e.index].start.Some? && WellFormed(s.queue[e.index].request)
    ensures s.now <= s.queue[e.index].start.value.at
  {
  }

  lemma EventGoesOn(c: Config, s: Node, e: Event, x: Running)
    requires CanHappen(c, s, e) && x in s.running
    ensures s.now <= Happens(c, s, e).now
    ensures x in Happens(c, s, e).running || Happens(c, s, e).now == x.finish
  {
    hide Waits; hide Schedule; hide LastProducer; hide Awaited; hide WaitTokens; hide Produce; hide AddPins; hide Started;
    hide LookedUp; hide Placed; hide Retire; hide DropPins;
    if e.Finishes? {
      var j := e.index;
      assert s.running == s.running[..j] + [s.running[j]] + s.running[j + 1..];
    }
  }

  /** Time never turns back, with or without prefills on the node. */
  lemma EventKeepsTime(c: Config, s: Node, e: Event)
    requires CanHappen(c, s, e)
    ensures s.now <= Happens(c, s, e).now
  {
    hide Waits; hide Schedule; hide LastProducer; hide Awaited; hide WaitTokens; hide Produce; hide AddPins; hide Started;
    hide LookedUp; hide Placed; hide Retire; hide DropPins;
  }

  /** A prefill stays on its node until its finish: before that instant no state is without it. */
  lemma {:induction false} RunsUntilItsFinish(c: Config, states: seq<Node>, events: seq<Event>, i: nat, j: nat, x: Running)
    requires IsRun(c, states, events) && i <= j < |states| && x in states[i].running
    ensures x in states[j].running || x.finish <= states[j].now
  {
    hide CanHappen; hide Happens;
    if i < j {
      RunsUntilItsFinish(c, states, events, i, j - 1, x);
      EventKeepsTime(c, states[j - 1], events[j - 1]);
      if x in states[j - 1].running { EventGoesOn(c, states[j - 1], events[j - 1], x); }
    }
  }

  lemma OneAtATime(c: Config, s: Node, i: nat)
    requires Inv(c, s) && c.concurrency == 1 && i < |s.queue| && s.queue[i].start.Some?
    ensures s.running == []
  {
    hide Good; hide Timely; hide Counts; hide Produced; hide ScheduledCount;
    QueueWithout(s.queue, i);
  }

  /** With one slot a node runs one prefill after the other: of two that began at different events
      the earlier was over when the later began. */
  lemma PrefillsOfOneSlotAreApart(c: Config, policy: Policy, states: seq<Node>, events: seq<Event>, i: nat, j: nat)
    requires Sound(policy) && Tracked(policy) == {} && c.tokenMs >= 0.0 && c.concurrency == 1
    requires IsRun(c, states, events) && states[0] == Idle(policy) && i < j < |events|
    requires events[i].Starts? && events[i].index < |states[i].queue| && !Waits(c, states[i], states[i].queue[events[i].index].request)
    requires events[j].Starts? && events[j].index < |states[j].queue| && !Waits(c, states[j], states[j].queue[events[j].index].request)
    ensures states[i + 1].running != [] && states[j + 1].running != []
    ensures var x := states[i + 1].running[|states[i + 1].running| - 1];
            var y := states[j + 1].running[|states[j + 1].running| - 1];
            x.finish <= y.startedAt
  {
    hide CanHappen; hide Happens; hide Inv; hide Sound; hide Tracked; hide Waits;
    StartIsReady(c, states[i], events[i]);
    StartIsReady(c, states[j], events[j]);
    StartAdds(c, states[i], events[i]);
    StartAdds(c, states[j], events[j]);
    var x := Started(c, states[i], events[i].index);
    hide Started;
    assert x in states[i + 1].running;
    RunsUntilItsFinish(c, states, events, i + 1, j, x);
    EveryRunKeeps(c, policy, states, events, j);
    OneAtATime(c, states[j], events[j].index);
    StartedWorksOff(c, states[j], events[j].index);
  }

  lemma StartAdds(c: Config, s: Node, e: Event)
    requires CanHappen(c, s, e) && e.Starts? && e.index < |s.queue| && !Waits(c, s, s.queue[e.index].request)
    ensures s.queue[e.index].start.Some? && WellFormed(s.queue[e.index].request)
    ensures Happens(c, s, e).running == s.running + [Started(c, s, e.index)]
  {
    hide Waits; hide LastProducer; hide Produce; hide AddPins; hide Started; hide LookedUp;
  }

  // --- the queue and the waits ----------------------------------------------

  /** A request that arrives queues its tokens but for those the selector saw cached. */
  lemma ArrivalQueuesItsTokens(c: Config, s: Node, r: Request, visibleHitTokens: nat, now: real)
    ensures var t, q := OnArrival(c, s, r, visibleHitTokens, now), TokensFrom(r.sizes, 0) - visibleHitTokens;
            && t.now == now && t.queuedTokens == s.queuedTokens + q && t.running == s.running && t.cache == s.cache
            && |t.queue| == |s.queue| + 1
            && t.queue[|s.queue|].(start := None) == Item(r, q, None)
            && forall i :: 0 <= i < |s.queue| ==> t.queue[i].(start := s.queue[i].start) == s.queue[i]
  {
    hide SumOf; hide Schedule; hide TokensFrom;
    PromptLength(r);
    var queue := s.queue + [Item(r, InputTokens(r) - visibleHitTokens, None)];
    SchedulingStarts(queue, c.concurrency - s.activeRequests - ScheduledCount(queue), now);
  }

  /** Scheduling touches nothing but the starts of items that had none. */
  lemma {:induction false} SchedulingStarts(queue: seq<Item>, room: int, now: real)
    ensures var q := Schedule(queue, room, now);
            && |q| == |queue|
            && forall i :: 0 <= i < |q| ==>
                 && q[i].(start := queue[i].start) == queue[i]
                 && (q[i].start == queue[i].start || (queue[i].start.None? && q[i].start == Some(StartEvent(now, None, 0))))
  {
    if queue != [] && room > 0 {
      var more := if queue[0].start.Some? then room else room - 1;
      SchedulingStarts(queue[1..], more, now);
      var q, rest := Schedule(queue, room, now), Schedule(queue[1..], more, now);
      assert q[1..] == rest;
      assert forall i :: 1 <= i < |q| ==> q[i] == rest[i - 1] && queue[i] == queue[1..][i - 1];
    }
  }

  /** Total size of the blocks from position `n` on that are in `blocks`. */
  function SharedFrom(r: Request, blocks: set<Block>, n: nat): nat
    requires WellFormed(r) && n <= |r.sizes|
    decreases |r.sizes| - n
  {
    if n == |r.sizes| then 0 else (if r.prefix[n] in blocks then r.sizes[n] else 0) + SharedFrom(r, blocks, n + 1)
  }

  lemma {:induction false} SharedTokens(r: Request, blocks: set<Block>, n: nat)
    requires WellFormed(r) && n <= |r.sizes|
    ensures TokensIn(r.prefix[n..], r.sizes[n..], blocks) == SharedFrom(r, blocks, n)
    decreases |r.sizes| - n
  {
    if n < |r.sizes| {
      assert r.prefix[n..][1..] == r.prefix[n + 1..] && r.sizes[n..][1..] == r.sizes[n + 1..];
      SharedTokens(r, blocks, n + 1);
    }
  }

  /** A start that waits is put off to `until`, remembers since when (instant 0 counts as never) and
      for how many tokens, and pins what it waits for; the node does nothing else. */
  lemma WaitIsPutOff(s: Node, i: nat, until: real)
    requires i < |s.queue| && s.queue[i].start.Some? && WellFormed(s.queue[i].request)
    ensures var t, item := Wait(s, i, until), s.queue[i];
            var e, r := item.start.value, item.request;
            var missing := set b | b in s.inflight && b in r.prefix[HitCount(s.cache.resident, r.prefix)..];
            && t.queue == s.queue[i := item.(start := t.queue[i].start)] && t.queue[i].start.Some?
            && t.queue[i].start.value.at == until
            && t.queue[i].start.value.waitTokens == e.waitTokens + SharedFrom(r, missing, 0)
            && (e.waitSince.None? ==> t.queue[i].start.value.waitSince == Some(e.at))
            && (e.waitSince.Some? && e.waitSince.value != 0.0 ==> t.queue[i].start.value.waitSince == e.waitSince)
            && t.waiterPins == s.waiterPins + missing && t.now == e.at
            && t == s.(now := t.now, waiterPins := t.waiterPins, queue := t.queue)
  {
    hide TokensIn; hide SharedFrom;
    var r := s.queue[i].request;
    var missing := set b | b in s.inflight && b in r.prefix[HitCount(s.cache.resident, r.prefix)..];
    assert missing == Awaited(s.inflight, r.prefix[HitCount(s.cache.resident, r.prefix)..]);
    SharedTokens(r, missing, 0);
    assert r.prefix[0..] == r.prefix && r.sizes[0..] == r.sizes;
  }

  /** A prefill that begins after a wait lets go of its own blocks, and of nothing else; one that did
      not wait lets go of nothing. */
  lemma WaiterLetsGo(c: Config, s: Node, i: nat, b: Block)
    requires i < |s.queue| && s.queue[i].start.Some? && WellFormed(s.queue[i].request)
    ensures b in Begin(c, s, i).waiterPins <==>
              b in s.waiterPins && !(s.queue[i].start.value.waitSince.Some? && b in s.queue[i].request.prefix)
  {
    hide Produce; hide AddPins; hide LookedUp; hide SumOf; hide HitCount;
    Listed(s.queue[i].request.prefix, b);
  }

  /** A finishing prefill places its own blocks, at its finish, around everything that is pinned. */
  lemma FinishPlacesItsBlocks(c: Config, s: Node, j: nat, pins: set<Block>)
    requires j < |s.running| && s.running[j].hitBlocks <= |s.running[j].request.prefix|
    requires pins == s.waiterPins + s.activePins.Keys
    ensures var t, x := OnFinish(c, s, j), s.running[j];
            && t.cache == Placed(c.capacityBlocks, s.cache, x.request.prefix, x.finish, pins)
            && t.now == x.finish && t.running == s.running[..j] + s.running[j + 1..]
            && t.activeTokens == s.activeTokens - x.uncached && t.waiterPins == s.waiterPins
  {
    hide Placed; hide DropPins; hide Retire; hide Schedule;
    assert pins == s.activePins.Keys + s.waiterPins;
  }

  /** A finishing prefill evicts neither what others run on nor what they wait for. */
  lemma FinishSparesPins(c: Config, s: Node, j: nat)
    requires Inv(c, s) && j < |s.running| && s.running[j].hitBlocks <= |s.running[j].request.prefix|
    requires Due(s, s.running[j].finish)
    ensures forall b :: b in s.cache.resident && (b in s.activePins || b in s.waiterPins) ==>
                          b in OnFinish(c, s, j).cache.resident
  {
    hide Good; hide Counts; hide Produced; hide DropPins; hide Retire; hide Schedule; hide PlaceAll;
    var x := s.running[j];
    TimePasses(s.cache, s.now, x.finish);
    PlaceKeeps(c.capacityBlocks, s.cache, x.request.prefix, x.finish, s.activePins.Keys + s.waiterPins);
  }
}
