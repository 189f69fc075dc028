/** One node of the queued replay (src/prefill_cache_sim/simulator.py:331-519): a queue of
    requests, running prefills with pins, in-flight blocks and duplicate waits.
 */
module QueuedReplay {
  import opened Lists
  import opened Options
  import opened EvictionPolicies
  import opened NodeCache

  datatype Visibility = InsertAtCompletion | InflightDedupWait

  datatype Config = Config(
    visibility: Visibility,
    capacityBlocks: nat,
    tokenMs: real,
    concurrency: nat)

  datatype Request = Request(id: string, prefix: seq<Block>, sizes: seq<nat>)

  ghost predicate WellFormed(r: Request) { |r.prefix| == |r.sizes| }

  function InputTokens(r: Request): nat { SumOf(r.sizes) }

  /** A pending start event of a queued request; `waitSince` is set while it waits for the
      producers of its in-flight blocks. */
  datatype StartEvent = StartEvent(at: real, waitSince: Option<real>, waitTokens: nat)

  datatype Item = Item(request: Request, queuedTokens: int, start: Option<StartEvent>)

  /** A running prefill, and its pending finish event. */
  datatype Running = Running(request: Request, hitBlocks: nat, uncached: int, startedAt: real, finish: real)

  datatype Node = Node(
    now: real,
    cache: CacheState,
    queue: seq<Item>,
    running: seq<Running>,
    inflight: map<Block, real>,
    activePins: map<Block, nat>,
    waiterPins: set<Block>,
    activeRequests: int,
    activeTokens: int,
    queuedTokens: int)

  function Hits(x: Running): seq<Block>
    requires x.hitBlocks <= |x.request.prefix|
  {
    x.request.prefix[..x.hitBlocks]
  }

  function Missed(x: Running): seq<Block>
    requires x.hitBlocks <= |x.request.prefix|
  {
    x.request.prefix[x.hitBlocks..]
  }

  // --- scheduling -----------------------------------------------------------

  function ScheduledCount(queue: seq<Item>): nat {
    if queue == [] then 0 else (if queue[0].start.Some? then 1 else 0) + ScheduledCount(queue[1..])
  }

  /** Give the first unscheduled requests a start event, as many as there is room for. */
  function Schedule(queue: seq<Item>, room: int, now: real): seq<Item> {
    if queue == [] || room <= 0 then queue
    else if queue[0].start.Some? then [queue[0]] + Schedule(queue[1..], room, now)
    else [queue[0].(start := Some(StartEvent(now, None, 0)))] + Schedule(queue[1..], room - 1, now)
  }

  function ScheduleStarts(c: Config, s: Node): Node {
    s.(queue := Schedule(s.queue, c.concurrency - s.activeRequests - ScheduledCount(s.queue), s.now))
  }

  // --- the three events -----------------------------------------------------

  function OnArrival(c: Config, s: Node, r: Request, visibleHitTokens: nat, now: real): Node {
    var queued := InputTokens(r) - visibleHitTokens;
    ScheduleStarts(c, s.(now := now, queue := s.queue + [Item(r, queued, None)], queuedTokens := s.queuedTokens + queued))
  }

  function AddPins(pins: map<Block, nat>, blocks: seq<Block>): map<Block, nat>
    decreases |blocks|
  {
    if blocks == [] then pins
    else
      var before, b := AddPins(pins, blocks[..|blocks| - 1]), blocks[|blocks| - 1];
      before[b := (if b in before then before[b] else 0) + 1]
  }

  /** Release one reference of each hit; the entry disappears with its last reference. */
  function DropPins(pins: map<Block, nat>, blocks: seq<Block>): map<Block, nat>
    decreases |blocks|
  {
    if blocks == [] then pins
    else
      var before, b := DropPins(pins, blocks[..|blocks| - 1]), blocks[|blocks| - 1];
      if b in before && before[b] > 1 then before[b := before[b] - 1] else before - {b}
  }

  /** setdefault for every missed block. */
  function Produce(inflight: map<Block, real>, blocks: seq<Block>, finish: real): map<Block, real>
    decreases |blocks|
  {
    if blocks == [] then inflight
    else
      var before, b := Produce(inflight, blocks[..|blocks| - 1], finish), blocks[|blocks| - 1];
      if b in before then before else before[b := finish]
  }

  /** Drop the missed blocks whose entry is this finish. */
  function Retire(inflight: map<Block, real>, blocks: seq<Block>, finish: real): map<Block, real>
    decreases |blocks|
  {
    if blocks == [] then inflight
    else
      var before, b := Retire(inflight, blocks[..|blocks| - 1], finish), blocks[|blocks| - 1];
      if b in before && before[b] == finish then before - {b} else before
  }

  /** Missed blocks another prefill is producing. */
  function Awaited(inflight: map<Block, real>, missed: seq<Block>): set<Block> {
    set b | b in missed && b in inflight
  }

  /** The last of the awaited finish times. */
  ghost predicate LastProducer(inflight: map<Block, real>, awaited: set<Block>, t: real) {
    && (exists b :: b in awaited && b in inflight && inflight[b] == t)
    && forall b :: b in awaited && b in inflight ==> inflight[b] <= t
  }

  function WaitTokens(r: Request, awaited: set<Block>): nat
    requires WellFormed(r)
  {
    TokensIn(r.prefix, r.sizes, awaited)
  }

  function TokensIn(blocks: seq<Block>, sizes: seq<nat>, awaited: set<Block>): nat
    requires |blocks| == |sizes|
  {
    if blocks == [] then 0 else (if blocks[0] in awaited then sizes[0] else 0) + TokensIn(blocks[1..], sizes[1..], awaited)
  }

  function Waits(c: Config, s: Node, r: Request): bool {
    && c.visibility.InflightDedupWait?
    && Awaited(s.inflight, r.prefix[HitCount(s.cache.resident, r.prefix)..]) != {}
  }

  /** When the wait began; a wait that began at instant 0 counts as not begun. */
  function WaitedSince(e: StartEvent): real {
    if e.waitSince.Some? && e.waitSince.value != 0.0 then e.waitSince.value else e.at
  }

  /** A start that finds its blocks in flight waits until the last producer is done. */
  function Wait(s: Node, i: nat, until: real): Node
    requires i < |s.queue| && s.queue[i].start.Some? && WellFormed(s.queue[i].request)
  {
    var r, e := s.queue[i].request, s.queue[i].start.value;
    var awaited := Awaited(s.inflight, r.prefix[HitCount(s.cache.resident, r.prefix)..]);
    s.(now := e.at,
       waiterPins := s.waiterPins + awaited,
       queue := s.queue[i := s.queue[i].(start := Some(StartEvent(until, Some(WaitedSince(e)),
                                                                  e.waitTokens + WaitTokens(r, awaited))))])
  }

  function FinishOf(c: Config, at: real, uncached: int): real { at + uncached as real * c.tokenMs }

  /** The running prefill a start adds. */
  function Started(c: Config, s: Node, i: nat): Running
    requires i < |s.queue| && s.queue[i].start.Some? && WellFormed(s.queue[i].request)
  {
    var r, at := s.queue[i].request, s.queue[i].start.value.at;
    var lookup := LookupOf(s.cache, r.prefix, r.sizes);
    var uncached := InputTokens(r) - lookup.hitTokens;
    Running(r, lookup.hitBlocks, uncached, at, FinishOf(c, at, uncached))
  }

  /** Otherwise it leaves the queue and runs. */
  function Begin(c: Config, s: Node, i: nat): Node
    requires i < |s.queue| && s.queue[i].start.Some? && WellFormed(s.queue[i].request)
  {
    var x := Started(c, s, i);
    Dequeued(s, i, x).(cache := LookedUp(s.cache, x.request.prefix))
  }

  function Dequeued(s: Node, i: nat, x: Running): Node
    requires i < |s.queue| && s.queue[i].start.Some? && x.hitBlocks <= |x.request.prefix|
  {
    var e := s.queue[i].start.value;
    s.(now := e.at,
       queue := s.queue[..i] + s.queue[i + 1..],
       running := s.running + [x],
       inflight := Produce(s.inflight, Missed(x), x.finish),
       activePins := AddPins(s.activePins, Hits(x)),
       waiterPins := if e.waitSince.Some? then s.waiterPins - Elements(x.request.prefix) else s.waiterPins,
       activeRequests := s.activeRequests + 1,
       activeTokens := s.activeTokens + x.uncached,
       queuedTokens := s.queuedTokens - s.queue[i].queuedTokens)
  }

  /** The finished prefill's blocks are placed around the pins, its own pins released and its
      in-flight entries retired. */
  function Finalized(c: Config, s: Node, j: nat): Node
    requires j < |s.running| && s.running[j].hitBlocks <= |s.running[j].request.prefix|
  {
    var x := s.running[j];
    var pinned := s.activePins.Keys + s.waiterPins;
    s.(now := x.finish,
       cache := Placed(c.capacityBlocks, s.cache, x.request.prefix, x.finish, pinned),
       running := s.running[..j] + s.running[j + 1..],
       inflight := Retire(s.inflight, Missed(x), x.finish),
       activePins := DropPins(s.activePins, Hits(x)),
       activeRequests := s.activeRequests - 1,
       activeTokens := s.activeTokens - x.uncached)
  }

  function OnFinish(c: Config, s: Node, j: nat): Node
    requires j < |s.running| && s.running[j].hitBlocks <= |s.running[j].request.prefix|
  {
    ScheduleStarts(c, Finalized(c, s, j))
  }

  // --- the invariant --------------------------------------------------------

  function PinBag(running: seq<Running>): multiset<Block> {
    if running == [] then multiset{}
    else multiset(running[0].request.prefix[..Bounded(running[0])]) + PinBag(running[1..])
  }

  function Bounded(x: Running): (n: nat)
    ensures n <= |x.request.prefix| && (x.hitBlocks <= |x.request.prefix| ==> n == x.hitBlocks)
  {
    if x.hitBlocks <= |x.request.prefix| then x.hitBlocks else 0
  }

  /** The pin map counts exactly the references of `bag`. */
  ghost predicate Counts(pins: map<Block, nat>, bag: multiset<Block>) {
    forall b :: (b in pins <==> b in bag) && (b in pins ==> pins[b] == bag[b])
  }

  function MissedSet(x: Running): set<Block> { Elements(x.request.prefix[Bounded(x)..]) }

  function AllMissed(running: seq<Running>): set<Block> {
    if running == [] then {} else MissedSet(running[0]) + AllMissed(running[1..])
  }

  function Production(running: seq<Running>): map<Block, real> {
    if running == [] then map[]
    else Production(running[1..]) + FinishAt(MissedSet(running[0]), running[0].finish)
  }

  predicate Exclusive(running: seq<Running>) {
    running == [] || (MissedSet(running[0]) !! AllMissed(running[1..]) && Exclusive(running[1..]))
  }

  /** Every in-flight block has exactly one running producer, whose finish it carries. */
  ghost predicate Produced(running: seq<Running>, inflight: map<Block, real>) {
    Exclusive(running) && inflight == Production(running)
  }

  function ActiveWork(running: seq<Running>): int {
    if running == [] then 0 else running[0].uncached + ActiveWork(running[1..])
  }

  function QueuedWork(queue: seq<Item>): int {
    if queue == [] then 0 else queue[0].queuedTokens + QueuedWork(queue[1..])
  }

  /** Counters agree with the queue and the running prefills; concurrency is never exceeded,
      and no slot is left open while a request is unscheduled. */
  ghost predicate Tallied(c: Config, s: Node) {
    && s.activeRequests == |s.running| && s.activeRequests + ScheduledCount(s.queue) <= c.concurrency
    && (s.activeRequests + ScheduledCount(s.queue) == c.concurrency || ScheduledCount(s.queue) == |s.queue|)
    && s.activeTokens == ActiveWork(s.running) && s.queuedTokens == QueuedWork(s.queue)
  }

  ghost predicate Timely(s: Node) {
    && (forall x :: x in s.running ==> s.now <= x.finish && x.hitBlocks <= |x.request.prefix| && WellFormed(x.request))
    && (forall x :: x in s.queue ==> WellFormed(x.request) && (x.start.Some? ==> s.now <= x.start.value.at))
  }

  ghost predicate Inv(c: Config, s: Node) {
    && Good(s.cache, s.now) && |s.cache.resident| <= c.capacityBlocks
    && Timely(s) && Tallied(c, s)
    && Counts(s.activePins, PinBag(s.running)) && s.activePins.Keys <= s.cache.resident
    && (c.visibility.InflightDedupWait? ==> Produced(s.running, s.inflight))
  }

  // --- pins -----------------------------------------------------------------

  lemma {:induction false} PinBagConcat(a: seq<Running>, b: seq<Running>)
    ensures PinBag(a + b) == PinBag(a) + PinBag(b)
  {
    if a == [] {
      assert a + b == b;
    } else {
      assert (a + b)[1..] == a[1..] + b;
      PinBagConcat(a[1..], b);
    }
  }

  lemma {:induction false} PinBagWithout(running: seq<Running>, j: nat)
    requires j < |running| && running[j].hitBlocks <= |running[j].request.prefix|
    ensures multiset(Hits(running[j])) <= PinBag(running)
    ensures PinBag(running[..j] + running[j + 1..]) == PinBag(running) - multiset(Hits(running[j]))
  {
    var x := [running[j]];
    assert running == running[..j] + (x + running[j + 1..]);
    PinBagConcat(running[..j], x + running[j + 1..]);
    PinBagConcat(x, running[j + 1..]);
    PinBagConcat(running[..j], running[j + 1..]);
    assert PinBag(x) == multiset(Hits(running[j])) + PinBag([]);
  }

  lemma {:induction false} PinBagMore(running: seq<Running>, x: Running)
    requires x.hitBlocks <= |x.request.prefix|
    ensures PinBag(running + [x]) == PinBag(running) + multiset(Hits(x))
  {
    PinBagConcat(running, [x]);
    assert PinBag([x]) == multiset(Hits(x)) + PinBag([]);
  }

  lemma {:induction false} AddPinsCounts(pins: map<Block, nat>, bag: multiset<Block>, blocks: seq<Block>)
    requires Counts(pins, bag)
    ensures Counts(AddPins(pins, blocks), bag + multiset(blocks))
    decreases |blocks|
  {
    if blocks == [] {
      assert multiset(blocks) == multiset{};
    } else {
      var front, b := blocks[..|blocks| - 1], blocks[|blocks| - 1];
      assert blocks == front + [b];
      AddPinsCounts(pins, bag, front);
    }
  }

  lemma {:induction false} DropPinsCounts(pins: map<Block, nat>, bag: multiset<Block>, blocks: seq<Block>)
    requires Counts(pins, bag) && multiset(blocks) <= bag
    ensures Counts(DropPins(pins, blocks), bag - multiset(blocks))
    decreases |blocks|
  {
    if blocks == [] {
      assert multiset(blocks) == multiset{};
    } else {
      var front, b := blocks[..|blocks| - 1], blocks[|blocks| - 1];
      assert blocks == front + [b];
      assert multiset(blocks) == multiset(front) + multiset{b};
      DropPinsCounts(pins, bag, front);
      assert (bag - multiset(front))[b] >= 1;
    }
  }


  // --- in-flight blocks -----------------------------------------------------

  function FinishAt(blocks: set<Block>, finish: real): map<Block, real> { map b | b in blocks :: finish }

  lemma {:induction false} ProduceAdds(inflight: map<Block, real>, blocks: seq<Block>, finish: real)
    requires Elements(blocks) !! inflight.Keys
    ensures Produce(inflight, blocks, finish) == inflight + FinishAt(Elements(blocks), finish)
    decreases |blocks|
  {
    if blocks != [] {
      var front, b := blocks[..|blocks| - 1], blocks[|blocks| - 1];
      assert blocks == front + [b] && Elements(blocks) == Elements(front) + {b};
      ProduceAdds(inflight, front, finish);
      assert FinishAt(Elements(blocks), finish) == FinishAt(Elements(front), finish)[b := finish];
    }
  }

  lemma {:induction false} RetireDrops(inflight: map<Block, real>, blocks: seq<Block>, finish: real)
    requires forall b :: b in blocks && b in inflight ==> inflight[b] == finish
    ensures Retire(inflight, blocks, finish) == inflight - Elements(blocks)
    decreases |blocks|
  {
    if blocks != [] {
      var front, b := blocks[..|blocks| - 1], blocks[|blocks| - 1];
      assert blocks == front + [b] && Elements(blocks) == Elements(front) + {b};
      RetireDrops(inflight, front, finish);
    }
  }

  lemma {:induction false} ProductionKeys(running: seq<Running>)
    ensures Production(running).Keys == AllMissed(running)
  {
    if running != [] {
      ProductionKeys(running[1..]);
    }
  }

  lemma {:induction false} MissedConcat(a: seq<Running>, b: seq<Running>)
    ensures AllMissed(a + b) == AllMissed(a) + AllMissed(b)
    ensures Exclusive(a + b) <==> Exclusive(a) && Exclusive(b) && AllMissed(a) !! AllMissed(b)
  {
    hide MissedSet;
    if a == [] {
      assert a + b == b;
    } else {
      assert (a + b)[1..] == a[1..] + b;
      MissedConcat(a[1..], b);
    }
  }

  lemma MergeAssoc(a: map<Block, real>, b: map<Block, real>, c: map<Block, real>)
    ensures (a + b) + c == a + (b + c)
  {
  }

  lemma {:induction false} ProductionConcat(a: seq<Running>, b: seq<Running>)
    ensures Production(a + b) == Production(b) + Production(a)
  {
    hide MissedSet;
    if a == [] {
      assert a + b == b && Production(b) + map[] == Production(b);
    } else {
      assert (a + b)[1..] == a[1..] + b;
      ProductionConcat(a[1..], b);
      MergeAssoc(Production(b), Production(a[1..]), FinishAt(MissedSet(a[0]), a[0].finish));
    }
  }

  lemma ProductionOfOne(x: Running)
    ensures AllMissed([x]) == MissedSet(x) && Exclusive([x])
    ensures Production([x]) == FinishAt(MissedSet(x), x.finish)
  {
    assert Production([]) + FinishAt(MissedSet(x), x.finish) == FinishAt(MissedSet(x), x.finish);
  }

  lemma MergeCommutes(a: map<Block, real>, b: map<Block, real>)
    requires a.Keys !! b.Keys
    ensures a + b == b + a
  {
  }

  /** A prefill whose blocks nobody produces becomes their only producer. */
  lemma {:induction false} ProducedMore(running: seq<Running>, inflight: map<Block, real>, x: Running)
    requires Produced(running, inflight) && x.hitBlocks <= |x.request.prefix|
    requires Elements(Missed(x)) !! inflight.Keys
    ensures Produced(running + [x], Produce(inflight, Missed(x), x.finish))
  {
    hide Exclusive; hide AllMissed; hide Production; hide Produce;
    ProduceAdds(inflight, Missed(x), x.finish);
    ProductionKeys(running);
    MissedConcat(running, [x]);
    ProductionConcat(running, [x]);
    ProductionOfOne(x);
    MergeCommutes(Production([x]), inflight);
  }

  /** A finished prefill takes exactly its own blocks out. */
  lemma {:induction false} ProducedWithout(running: seq<Running>, inflight: map<Block, real>, j: nat)
    requires Produced(running, inflight) && j < |running| && running[j].hitBlocks <= |running[j].request.prefix|
    ensures Produced(running[..j] + running[j + 1..], Retire(inflight, Missed(running[j]), running[j].finish))
  {
    hide Exclusive; hide AllMissed; hide Production; hide Retire;
    var x, a, b := running[j], running[..j], running[j + 1..];
    assert running == a + ([x] + b);
    MissedConcat(a, [x] + b);
    MissedConcat([x], b);
    MissedConcat(a, b);
    ProductionConcat(a, [x] + b);
    ProductionConcat([x], b);
    ProductionConcat(a, b);
    ProductionOfOne(x);
    ProductionKeys(a);
    ProductionKeys(b);
    assert MissedSet(x) == Elements(Missed(x));
    RetireDrops(inflight, Missed(x), x.finish);
    assert inflight - MissedSet(x) == Production(b) + Production(a);
  }

  /** In dedup-wait mode the missed blocks of two running prefills never overlap, and their
      union is the domain of `inflight`. */
  lemma MissedBlocksAreApart(c: Config, s: Node, i: nat, j: nat)
    requires Inv(c, s) && c.visibility.InflightDedupWait? && i < j < |s.running|
    ensures MissedSet(s.running[i]) !! MissedSet(s.running[j]) && AllMissed(s.running) == s.inflight.Keys
  {
    ProductionKeys(s.running);
    MemberMissed(s.running[i + 1..], j - i - 1);
    ApartAt(s.running, i);
  }

  lemma {:induction false} MemberMissed(running: seq<Running>, i: nat)
    requires i < |running|
    ensures MissedSet(running[i]) <= AllMissed(running)
  {
    if i > 0 { MemberMissed(running[1..], i - 1); }
  }

  lemma {:induction false} ApartAt(running: seq<Running>, i: nat)
    requires Exclusive(running) && i < |running|
    ensures MissedSet(running[i]) !! AllMissed(running[i + 1..])
  {
    if i > 0 {
      ApartAt(running[1..], i - 1);
      assert running[1..][i..] == running[i + 1..];
    }
  }

  // --- the queue ------------------------------------------------------------

  lemma {:induction false} ScheduledAtMost(queue: seq<Item>)
    ensures ScheduledCount(queue) <= |queue|
  {
    if queue != [] {
      ScheduledAtMost(queue[1..]);
    }
  }

  /** Scheduling fills the open slots, or runs out of unscheduled requests. */
  lemma {:induction false} ScheduleFills(queue: seq<Item>, room: int, now: real)
    ensures var q, n := Schedule(queue, room, now), ScheduledCount(queue);
            && |q| == |queue| && QueuedWork(q) == QueuedWork(queue)
            && ScheduledCount(q) == (if room <= 0 then n else if room <= |queue| - n then n + room else |queue|)
            && (forall x :: x in q ==> x in queue || (x.start == Some(StartEvent(now, None, 0)) && x.(start := None) in queue))
  {
    ScheduledAtMost(queue);
    if queue != [] && room > 0 {
      var head, tail := queue[0], queue[1..];
      var more := if head.start.Some? then room else room - 1;
      ScheduledAtMost(tail);
      ScheduleFills(tail, more, now);
      var q := Schedule(queue, room, now);
      assert q[1..] == Schedule(tail, more, now);
      assert forall x :: x in q <==> x == q[0] || x in q[1..];
      assert forall x :: x in tail ==> x in queue;
      assert head in queue && (head.start.None? ==> head.(start := None) == head);
    }
  }

  lemma {:induction false} QueueConcat(a: seq<Item>, b: seq<Item>)
    ensures ScheduledCount(a + b) == ScheduledCount(a) + ScheduledCount(b)
    ensures QueuedWork(a + b) == QueuedWork(a) + QueuedWork(b)
  {
    if a == [] {
      assert a + b == b;
    } else {
      assert (a + b)[1..] == a[1..] + b;
      QueueConcat(a[1..], b);
    }
  }

  lemma OneQueued(x: Item)
    ensures ScheduledCount([x]) == (if x.start.Some? then 1 else 0) && QueuedWork([x]) == x.queuedTokens
  {
    assert ScheduledCount([x]) == (if x.start.Some? then 1 else 0) + ScheduledCount([]);
    assert QueuedWork([x]) == x.queuedTokens + QueuedWork([]);
  }

  lemma {:induction false} QueueWithout(queue: seq<Item>, i: nat)
    requires i < |queue|
    ensures ScheduledCount(queue) == ScheduledCount(queue[..i] + queue[i + 1..]) + (if queue[i].start.Some? then 1 else 0)
    ensures QueuedWork(queue) == QueuedWork(queue[..i] + queue[i + 1..]) + queue[i].queuedTokens
  {
    hide ScheduledCount; hide QueuedWork;
    var x := [queue[i]];
    OneQueued(queue[i]);
    assert queue == queue[..i] + (x + queue[i + 1..]);
    QueueConcat(queue[..i], x + queue[i + 1..]);
    QueueConcat(x, queue[i + 1..]);
    QueueConcat(queue[..i], queue[i + 1..]);
  }

  lemma QueueUpdated(queue: seq<Item>, i: nat, x: Item)
    requires i < |queue| && queue[i].start.Some? == x.start.Some? && queue[i].queuedTokens == x.queuedTokens
    ensures ScheduledCount(queue[i := x]) == ScheduledCount(queue) && QueuedWork(queue[i := x]) == QueuedWork(queue)
  {
    QueueWithout(queue, i);
    QueueWithout(queue[i := x], i);
    assert queue[i := x][..i] + queue[i := x][i + 1..] == queue[..i] + queue[i + 1..];
  }

  lemma {:induction false} ActiveConcat(a: seq<Running>, b: seq<Running>)
    ensures ActiveWork(a + b) == ActiveWork(a) + ActiveWork(b)
  {
    if a == [] {
      assert a + b == b;
    } else {
      assert (a + b)[1..] == a[1..] + b;
      ActiveConcat(a[1..], b);
    }
  }

  lemma OneActive(x: Running)
    ensures ActiveWork([x]) == x.uncached
  {
    assert ActiveWork([x]) == x.uncached + ActiveWork([]);
  }

  lemma {:induction false} ActiveWithout(running: seq<Running>, j: nat)
    requires j < |running|
    ensures ActiveWork(running) == ActiveWork(running[..j] + running[j + 1..]) + running[j].uncached
  {
    hide ActiveWork;
    var x := [running[j]];
    OneActive(running[j]);
    assert running == running[..j] + (x + running[j + 1..]);
    ActiveConcat(running[..j], x + running[j + 1..]);
    ActiveConcat(x, running[j + 1..]);
    ActiveConcat(running[..j], running[j + 1..]);
  }

  // --- every event keeps the invariant --------------------------------------

  ghost predicate Counters(c: Config, s: Node) {
    && s.activeRequests == |s.running| && s.activeRequests + ScheduledCount(s.queue) <= c.concurrency
    && s.activeTokens == ActiveWork(s.running) && s.queuedTokens == QueuedWork(s.queue)
  }

  lemma SchedulingKeeps(c: Config, s: Node)
    requires Counters(c, s) && Timely(s)
    ensures var t := ScheduleStarts(c, s); Tallied(c, t) && Timely(t)
  {
    var room := c.concurrency - s.activeRequests - ScheduledCount(s.queue);
    ScheduledAtMost(s.queue);
    ScheduleFills(s.queue, room, s.now);
  }

  lemma ArrivalKeeps(c: Config, s: Node, r: Request, visibleHitTokens: nat, now: real)
    requires Inv(c, s) && WellFormed(r) && s.now <= now
    requires forall x :: x in s.running ==> now <= x.finish
    requires forall x :: x in s.queue && x.start.Some? ==> now <= x.start.value.at
    ensures Inv(c, OnArrival(c, s, r, visibleHitTokens, now))
  {
    hide Good; hide Schedule; hide Counts; hide Produced;
    TimePasses(s.cache, s.now, now);
    var queued := InputTokens(r) - visibleHitTokens;
    var t := s.(now := now, queue := s.queue + [Item(r, queued, None)], queuedTokens := s.queuedTokens + queued);
    QueueConcat(s.queue, [Item(r, queued, None)]);
    SchedulingKeeps(c, t);
  }

  /** `e` is the node's next event: nothing of the node is due before it. */
  ghost predicate Due(s: Node, at: real) {
    && s.now <= at && (forall x :: x in s.running ==> at <= x.finish)
    && (forall x :: x in s.queue && x.start.Some? ==> at <= x.start.value.at)
  }

  lemma {:induction false} SumOfPrefix(sizes: seq<nat>, n: nat)
    requires n <= |sizes|
    ensures SumOf(sizes[..n]) <= SumOf(sizes)
    decreases |sizes|
  {
    if n < |sizes| {
      assert sizes[..|sizes| - 1][..n] == sizes[..n];
      SumOfPrefix(sizes[..|sizes| - 1], n);
    } else {
      assert sizes[..n] == sizes;
    }
  }

  lemma FinishIsLater(c: Config, cache: CacheState, r: Request, at: real)
    requires WellFormed(r) && c.tokenMs >= 0.0
    ensures var uncached := InputTokens(r) - LookupOf(cache, r.prefix, r.sizes).hitTokens;
            uncached >= 0 && at <= FinishOf(c, at, uncached)
  {
    SumOfPrefix(r.sizes, HitCount(cache.resident, r.prefix));
  }

  lemma QueueMember(queue: seq<Item>, i: nat)
    requires i < |queue|
    ensures queue[i] in queue && forall x :: x in queue[..i] + queue[i + 1..] ==> x in queue
  {
  }

  lemma BeginKeeps(c: Config, s: Node, i: nat)
    requires Inv(c, s) && c.tokenMs >= 0.0 && i < |s.queue| && s.queue[i].start.Some? && WellFormed(s.queue[i].request)
    requires Due(s, s.queue[i].start.value.at) && !Waits(c, s, s.queue[i].request)
    ensures Inv(c, Begin(c, s, i))
  {
    hide Good; hide Counts; hide Produced; hide LookedUp; hide AddPins; hide Produce; hide ScheduledCount; hide QueuedWork;
    hide PinBag; hide ActiveWork; hide SumOf;
    var item, x := s.queue[i], Started(c, s, i);
    var r, at, n := item.request, item.start.value.at, HitCount(s.cache.resident, item.request.prefix);
    FinishIsLater(c, s.cache, r, at);
    TimePasses(s.cache, s.now, at);
    LookupKeepsGood(s.cache, r.prefix, at);
    QueueMember(s.queue, i);
    QueueWithout(s.queue, i);
    ActiveConcat(s.running, [x]);
    assert ActiveWork([x]) == x.uncached by { OneActive(x); }
    PinBagMore(s.running, x);
    AddPinsCounts(s.activePins, PinBag(s.running), Hits(x));
    PinsResident(s.activePins, PinBag(s.running), Hits(x), s.cache.resident);
    if c.visibility.InflightDedupWait? {
      var missing := r.prefix[n..];
      assert forall b :: b in Missed(x) && b in s.inflight ==> b in Awaited(s.inflight, missing);
      ProducedMore(s.running, s.inflight, x);
    }
  }

  lemma {:induction false} PinsResident(pins: map<Block, nat>, bag: multiset<Block>, hits: seq<Block>,
                                        resident: set<Block>)
    requires Counts(pins, bag) && pins.Keys <= resident && forall b :: b in hits ==> b in resident
    ensures AddPins(pins, hits).Keys <= resident
  {
    AddPinsCounts(pins, bag, hits);
    forall b | b in AddPins(pins, hits) ensures b in resident {
      assert b in bag + multiset(hits);
      assert b in bag ==> b in pins;
      assert b in multiset(hits) ==> b in hits;
    }
  }

  lemma WaitKeeps(c: Config, s: Node, i: nat, until: real)
    requires Inv(c, s) && i < |s.queue| && s.queue[i].start.Some? && WellFormed(s.queue[i].request)
    requires Due(s, s.queue[i].start.value.at) && s.queue[i].start.value.at <= until
    ensures Inv(c, Wait(s, i, until))
  {
    hide Good; hide Counts; hide Produced; hide ScheduledCount; hide QueuedWork; hide WaitTokens; hide Awaited;
    TimePasses(s.cache, s.now, s.queue[i].start.value.at);
    var t := Wait(s, i, until);
    QueueUpdated(s.queue, i, t.queue[i]);
    forall x | x in t.queue ensures WellFormed(x.request) && (x.start.Some? ==> t.now <= x.start.value.at) {
      var j :| 0 <= j < |t.queue| && t.queue[j] == x;
      assert j != i ==> x == s.queue[j] && x in s.queue;
    }
  }

  /** A wait ends no earlier than now: the awaited producers are still running. */
  lemma ProducersFinishLater(c: Config, s: Node, r: Request, until: real)
    requires Inv(c, s) && c.visibility.InflightDedupWait? && Waits(c, s, r)
    requires LastProducer(s.inflight, Awaited(s.inflight, r.prefix[HitCount(s.cache.resident, r.prefix)..]), until)
    requires forall x :: x in s.running ==> s.now <= x.finish
    ensures s.now <= until && exists x :: x in s.running && x.finish == until
  {
    hide Good; hide Counts;
    var b :| b in Awaited(s.inflight, r.prefix[HitCount(s.cache.resident, r.prefix)..]) && b in s.inflight && s.inflight[b] == until;
    ProducerOf(s.running, b);
  }

  lemma {:induction false} ProducerOf(running: seq<Running>, b: Block)
    requires b in Production(running)
    ensures exists x :: x in running && x.finish == Production(running)[b]
  {
    if b in MissedSet(running[0]) {
      assert running[0] in running;
    } else {
      ProducerOf(running[1..], b);
      var x :| x in running[1..] && x.finish == Production(running[1..])[b];
      assert x in running;
    }
  }

  lemma FinishKeeps(c: Config, s: Node, j: nat)
    requires Inv(c, s) && j < |s.running| && s.running[j].hitBlocks <= |s.running[j].request.prefix|
    requires Due(s, s.running[j].finish)
    ensures Inv(c, OnFinish(c, s, j))
  {
    hide Good; hide Counts; hide Produced; hide Placed; hide DropPins; hide Retire; hide Schedule;
    hide PinBag; hide ActiveWork;
    var x := s.running[j];
    var pinned := s.activePins.Keys + s.waiterPins;
    TimePasses(s.cache, s.now, x.finish);
    PlacementKeepsPins(c, s, x, pinned);
    PinBagWithout(s.running, j);
    DropPinsCounts(s.activePins, PinBag(s.running), Hits(x));
    PinsShrink(s.activePins, PinBag(s.running), Hits(x));
    ActiveWithout(s.running, j);
    if c.visibility.InflightDedupWait? { ProducedWithout(s.running, s.inflight, j); }
    var rest := s.running[..j] + s.running[j + 1..];
    assert forall y :: y in rest ==> y in s.running;
    SchedulingKeeps(c, Finalized(c, s, j));
  }

  /** No pinned block leaves residency, whatever the placement evicts. */
  lemma PlacementKeepsPins(c: Config, s: Node, x: Running, pinned: set<Block>)
    requires Good(s.cache, x.finish) && |s.cache.resident| <= c.capacityBlocks
    requires s.activePins.Keys <= s.cache.resident && s.activePins.Keys <= pinned
    ensures var t := Placed(c.capacityBlocks, s.cache, x.request.prefix, x.finish, pinned);
            && Good(t, x.finish) && |t.resident| <= c.capacityBlocks && s.activePins.Keys <= t.resident
  {
    hide Good; hide PlaceAll;
    PlaceKeeps(c.capacityBlocks, s.cache, x.request.prefix, x.finish, pinned);
  }

  lemma {:induction false} PinsShrink(pins: map<Block, nat>, bag: multiset<Block>, blocks: seq<Block>)
    requires Counts(pins, bag) && multiset(blocks) <= bag
    ensures DropPins(pins, blocks).Keys <= pins.Keys
  {
    DropPinsCounts(pins, bag, blocks);
    forall b | b in DropPins(pins, blocks) ensures b in pins {
      assert b in bag - multiset(blocks);
      assert b in bag;
    }
  }

  // --- whole runs -----------------------------------------------------------

  /** One event of the node. */
  datatype Event =
    | Arrives(request: Request, visibleHitTokens: nat, at: real)
    | Starts(index: nat, until: real)
    | Finishes(index: nat)

  ghost predicate CanHappen(c: Config, s: Node, e: Event) {
    match e
    case Arrives(r, _, at) => WellFormed(r) && Due(s, at)
    case Starts(i, until) =>
      && i < |s.queue| && s.queue[i].start.Some? && WellFormed(s.queue[i].request) && Due(s, s.queue[i].start.value.at)
      && (Waits(c, s, s.queue[i].request) ==>
            LastProducer(s.inflight, Awaited(s.inflight, s.queue[i].request.prefix[HitCount(s.cache.resident, s.queue[i].request.prefix)..]), until))
    case Finishes(j) =>
      j < |s.running| && s.running[j].hitBlocks <= |s.running[j].request.prefix| && Due(s, s.running[j].finish)
  }

  ghost function Happens(c: Config, s: Node, e: Event): Node
    requires CanHappen(c, s, e)
  {
    match e
    case Arrives(r, visible, at) => OnArrival(c, s, r, visible, at)
    case Starts(i, until) => if Waits(c, s, s.queue[i].request) then Wait(s, i, until) else Begin(c, s, i)
    case Finishes(j) => OnFinish(c, s, j)
  }

  lemma EventKeeps(c: Config, s: Node, e: Event)
    requires Inv(c, s) && c.tokenMs >= 0.0 && CanHappen(c, s, e)
    ensures Inv(c, Happens(c, s, e))
  {
    hide Inv; hide OnArrival; hide Begin; hide Wait; hide OnFinish; hide Awaited;
    match e
    case Arrives(r, visible, at) => ArrivalStep(c, s, r, visible, at);
    case Starts(i, until) =>
      if Waits(c, s, s.queue[i].request) { WaitStep(c, s, i, until); } else { BeginKeeps(c, s, i); }
    case Finishes(j) => FinishKeeps(c, s, j);
  }

  lemma ArrivalStep(c: Config, s: Node, r: Request, visible: nat, at: real)
    requires Inv(c, s) && WellFormed(r) && Due(s, at)
    ensures Inv(c, OnArrival(c, s, r, visible, at))
  {
    hide Inv; hide OnArrival;
    ArrivalKeeps(c, s, r, visible, at);
  }

  lemma WaitStep(c: Config, s: Node, i: nat, until: real)
    requires Inv(c, s) && CanHappen(c, s, Starts(i, until)) && Waits(c, s, s.queue[i].request)
    ensures Inv(c, Wait(s, i, until))
  {
    hide Good; hide Counts; hide Tallied; hide Wait;
    ProducersFinishLater(c, s, s.queue[i].request, until);
    WaitKeeps(c, s, i, until);
  }

  function Idle(policy: Policy): Node { Node(0.0, Fresh(policy), [], [], map[], map[], {}, 0, 0, 0) }

  lemma IdleIsFine(c: Config, policy: Policy)
    requires Sound(policy) && Tracked(policy) == {}
    ensures Inv(c, Idle(policy))
  {
    hide Good;
    FreshIsGood(policy, 0.0);
  }

  ghost predicate IsRun(c: Config, states: seq<Node>, events: seq<Event>) {
    && |states| == |events| + 1
    && forall i :: 0 <= i < |events| ==> CanHappen(c, states[i], events[i]) && states[i + 1] == Happens(c, states[i], events[i])
  }

  /** In every reachable state of a node: pins count the running requests' hits and are
      resident, counters agree, and in dedup-wait mode production is exclusive. */
  lemma {:induction false} EveryRunKeeps(c: Config, policy: Policy, states: seq<Node>, events: seq<Event>, n: nat)
    requires Sound(policy) && Tracked(policy) == {} && c.tokenMs >= 0.0
    requires IsRun(c, states, events) && states[0] == Idle(policy) && n < |states|
    ensures Inv(c, states[n])
  {
    hide Inv; hide CanHappen; hide Happens;
    if n == 0 {
      IdleIsFine(c, policy);
    } else {
      EveryRunKeeps(c, policy, states, events, n - 1);
      EventKeeps(c, states[n - 1], events[n - 1]);
    }
  }
}
