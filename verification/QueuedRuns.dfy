/** A queued node drains (src/prefill_cache_sim/simulator.py:331-519): with simultaneous events in
    heap order, finishes first, then starts, then arrivals, a run comes to an end after its last
    arrival, duplicate waits included, and by then every request that arrived has finished once. */
module QueuedRuns {
  import opened Options
  import opened EvictionPolicies
  import opened NodeCache
  import opened QueuedReplay

  /** The heap pops finishes before starts and starts before arrivals of the same time. */
  ghost predicate InHeapOrder(s: Node, e: Event) {
    match e
    case Arrives(_, _, at) =>
      (forall x :: x in s.running ==> at < x.finish) && (forall x :: x in s.queue && x.start.Some? ==> at < x.start.value.at)
    case Starts(i, _) =>
      i < |s.queue| && s.queue[i].start.Some? && forall x :: x in s.running ==> s.queue[i].start.value.at < x.finish
    case Finishes(_) => true
  }

  /** A scheduled start that comes before every finish: the next time it is popped it may still have
      to wait. */
  predicate Unparked(x: Item, running: seq<Running>) {
    x.start.Some? && forall y :: y in running ==> x.start.value.at < y.finish
  }

  function UnparkedCount(queue: seq<Item>, running: seq<Running>): nat {
    if queue == [] then 0
    else (if Unparked(queue[0], running) then 1 else 0) + UnparkedCount(queue[1..], running)
  }

  lemma {:induction false} UnparkedConcat(a: seq<Item>, b: seq<Item>, running: seq<Running>)
    ensures UnparkedCount(a + b, running) == UnparkedCount(a, running) + UnparkedCount(b, running)
  {
    if a == [] {
      assert a + b == b;
    } else {
      assert (a + b)[1..] == a[1..] + b;
      UnparkedConcat(a[1..], b, running);
    }
  }

  /** Parking one start leaves one fewer unparked. */
  lemma ParkedOne(queue: seq<Item>, i: nat, x: Item, running: seq<Running>)
    requires i < |queue| && Unparked(queue[i], running) && !Unparked(x, running)
    ensures UnparkedCount(queue[i := x], running) < UnparkedCount(queue, running)
  {
    hide Unparked;
    var front, back := queue[..i], queue[i + 1..];
    assert queue == front + ([queue[i]] + back) && queue[i := x] == front + ([x] + back);
    UnparkedConcat(front, [queue[i]] + back, running);
    UnparkedConcat(front, [x] + back, running);
    UnparkedConcat([queue[i]], back, running);
    UnparkedConcat([x], back, running);
    assert [x][1..] == [] && [queue[i]][1..] == [];
  }

  ghost predicate Descends(s: Node, t: Node) {
    || |t.queue| < |s.queue|
    || (|t.queue| == |s.queue| && |t.running| < |s.running|)
    || (|t.queue| == |s.queue| && t.running == s.running
        && UnparkedCount(t.queue, t.running) < UnparkedCount(s.queue, s.running))
  }

  /** A start that waits is parked behind a running producer. */
  lemma WaitDescends(c: Config, s: Node, i: nat, until: real)
    requires Inv(c, s) && CanHappen(c, s, Starts(i, until)) && InHeapOrder(s, Starts(i, until))
    requires Waits(c, s, s.queue[i].request)
    ensures Descends(s, Wait(s, i, until))
  {
    hide Good; hide Counts; hide Tallied; hide LastProducer; hide Awaited; hide UnparkedCount; hide WaitTokens;
    WaitProducers(c, s, i, until);
    var t := Wait(s, i, until);
    ParkedOne(s.queue, i, t.queue[i], s.running);
  }

  lemma WaitProducers(c: Config, s: Node, i: nat, until: real)
    requires Inv(c, s) && CanHappen(c, s, Starts(i, until)) && Waits(c, s, s.queue[i].request)
    ensures exists x :: x in s.running && x.finish == until
  {
    hide Good; hide Counts; hide Tallied; hide Produced;
    ProducersFinishLater(c, s, s.queue[i].request, until);
  }

  /** Every event but an arrival lowers the measure: requests queued, prefills running, starts that
      may still have to wait. */
  lemma EventDescends(c: Config, s: Node, e: Event)
    requires Inv(c, s) && CanHappen(c, s, e) && InHeapOrder(s, e) && !e.Arrives?
    ensures Descends(s, Happens(c, s, e))
  {
    hide Inv; hide UnparkedCount; hide Awaited; hide LastProducer; hide Wait;
    match e
    case Starts(i, until) => if Waits(c, s, s.queue[i].request) { WaitDescends(c, s, i, until); }
    case Finishes(j) => ScheduleKeepsLength(Finalized(c, s, j).queue, c.concurrency - Finalized(c, s, j).activeRequests
                                            - ScheduledCount(Finalized(c, s, j).queue), Finalized(c, s, j).now);
  }

  lemma {:induction false} ScheduleKeepsLength(queue: seq<Item>, room: int, now: real)
    ensures |Schedule(queue, room, now)| == |queue|
  {
    if queue != [] && room > 0 {
      ScheduleKeepsLength(queue[1..], if queue[0].start.Some? then room else room - 1, now);
    }
  }

  // --- no endless run -------------------------------------------------------

  ghost predicate Follows(c: Config, states: nat -> Node, events: nat -> Event, i: nat) {
    && CanHappen(c, states(i), events(i)) && InHeapOrder(states(i), events(i))
    && states(i + 1) == Happens(c, states(i), events(i))
  }

  /** Without arrivals some event is the last. */
  lemma {:induction false} SomeEventIsLast(c: Config, states: nat -> Node, events: nat -> Event, i: nat)
    requires Inv(c, states(i)) && c.tokenMs >= 0.0
    ensures exists n :: n >= i && (!Follows(c, states, events, n) || events(n).Arrives?)
    decreases |states(i).queue|, |states(i).running|, UnparkedCount(states(i).queue, states(i).running)
  {
    hide Inv; hide CanHappen; hide InHeapOrder; hide Happens; hide UnparkedCount;
    if Follows(c, states, events, i) && !events(i).Arrives? {
      EventKeeps(c, states(i), events(i));
      EventDescends(c, states(i), events(i));
      SomeEventIsLast(c, states, events, i + 1);
      var n :| n >= i + 1 && (!Follows(c, states, events, n) || events(n).Arrives?);
      assert n >= i;
    }
  }

  lemma {:induction false} StatesKeep(c: Config, policy: Policy, states: nat -> Node, events: nat -> Event, n: nat)
    requires Sound(policy) && Tracked(policy) == {} && c.tokenMs >= 0.0 && states(0) == Idle(policy)
    requires forall i: nat :: i < n ==> Follows(c, states, events, i)
    ensures Inv(c, states(n))
  {
    hide Inv; hide CanHappen; hide InHeapOrder; hide Happens;
    if n == 0 {
      IdleIsFine(c, policy);
    } else {
      StatesKeep(c, policy, states, events, n - 1);
      assert Follows(c, states, events, n - 1);
      EventKeeps(c, states(n - 1), events(n - 1));
    }
  }

  /** A run goes on for ever only if requests keep arriving: duplicate waits never do it. */
  lemma EndlessRunsKeepArriving(c: Config, policy: Policy, states: nat -> Node, events: nat -> Event, i: nat)
    requires Sound(policy) && Tracked(policy) == {} && c.tokenMs >= 0.0 && states(0) == Idle(policy)
    requires forall n: nat :: Follows(c, states, events, n)
    ensures exists n: nat :: n >= i && events(n).Arrives?
  {
    hide Follows; hide Inv;
    StatesKeep(c, policy, states, events, i);
    SomeEventIsLast(c, states, events, i);
    var n :| n >= i && (!Follows(c, states, events, n) || events(n).Arrives?);
    assert Follows(c, states, events, n);
  }

  // --- and none that stops early --------------------------------------------

  /** Some prefill finishes first. */
  lemma {:induction false} FirstFinish(running: seq<Running>) returns (j: nat)
    requires running != []
    ensures j < |running| && forall x :: x in running ==> running[j].finish <= x.finish
  {
    if |running| == 1 {
      j := 0;
    } else {
      var k := FirstFinish(running[1..]);
      assert forall x :: x in running ==> x == running[0] || x in running[1..];
      j := if running[0].finish <= running[1..][k].finish then 0 else k + 1;
    }
  }

  /** Some start comes first, if there is any. */
  lemma {:induction false} FirstStart(queue: seq<Item>) returns (i: nat)
    requires ScheduledCount(queue) > 0
    ensures i < |queue| && queue[i].start.Some?
    ensures forall x :: x in queue && x.start.Some? ==> queue[i].start.value.at <= x.start.value.at
  {
    assert forall x :: x in queue ==> x == queue[0] || x in queue[1..];
    if ScheduledCount(queue[1..]) == 0 {
      NoneScheduled(queue[1..]);
      i := 0;
    } else {
      var k := FirstStart(queue[1..]);
      i := if queue[0].start.Some? && queue[0].start.value.at <= queue[1..][k].start.value.at then 0 else k + 1;
    }
  }

  lemma {:induction false} NoneScheduled(queue: seq<Item>)
    requires ScheduledCount(queue) == 0
    ensures forall x :: x in queue ==> x.start.None?
  {
    if queue != [] { NoneScheduled(queue[1..]); }
  }

  lemma OneProducer(inflight: map<Block, real>, b: Block)
    requires b in inflight
    ensures LastProducer(inflight, {b}, inflight[b])
  {
    assert b in {b};
  }

  lemma LaterProducer(inflight: map<Block, real>, fewer: set<Block>, u: real, more: set<Block>, b: Block, t: real)
    requires LastProducer(inflight, fewer, u) && more == fewer + (if b in inflight then {b} else {})
    requires t == if b in inflight && inflight[b] >= u then inflight[b] else u
    ensures LastProducer(inflight, more, t)
  {
    var last :| last in fewer && last in inflight && inflight[last] == u;
    assert last in more && (b in inflight ==> b in more);
  }

  /** Among awaited blocks one is produced last. */
  lemma {:induction false} LastOfProducers(inflight: map<Block, real>, missed: seq<Block>) returns (t: real)
    requires Awaited(inflight, missed) != {}
    ensures LastProducer(inflight, Awaited(inflight, missed), t)
  {
    assert missed != [];
    hide LastProducer;
    var rest := missed[1..];
    assert missed == [missed[0]] + rest;
    assert Awaited(inflight, missed) == Awaited(inflight, rest) + (if missed[0] in inflight then {missed[0]} else {});
    if Awaited(inflight, rest) == {} {
      t := inflight[missed[0]];
      OneProducer(inflight, missed[0]);
      assert Awaited(inflight, missed) == {missed[0]};
    } else {
      var u := LastOfProducers(inflight, rest);
      t := if missed[0] in inflight && inflight[missed[0]] >= u then inflight[missed[0]] else u;
      LaterProducer(inflight, Awaited(inflight, rest), u, Awaited(inflight, missed), missed[0], t);
    }
  }

  /** As long as a request is queued or running, some event that is no arrival is next. */
  lemma WorkGoesOn(c: Config, s: Node) returns (e: Event)
    requires Inv(c, s) && c.concurrency > 0 && (s.queue != [] || s.running != [])
    ensures !e.Arrives? && CanHappen(c, s, e) && InHeapOrder(s, e)
  {
    hide Good; hide Counts; hide Produced; hide Awaited; hide LastProducer;
    ScheduledAtMost(s.queue);
    if ScheduledCount(s.queue) == 0 {
      NoneScheduled(s.queue);
      var j := FirstFinish(s.running);
      e := Finishes(j);
    } else {
      var i := FirstStart(s.queue);
      if s.running == [] {
        e := NextStart(c, s, i);
      } else {
        var j := FirstFinish(s.running);
        if s.running[j].finish <= s.queue[i].start.value.at { e := Finishes(j); } else { e := NextStart(c, s, i); }
      }
    }
  }

  lemma NextStart(c: Config, s: Node, i: nat) returns (e: Event)
    requires i < |s.queue| && s.queue[i].start.Some? && WellFormed(s.queue[i].request)
    requires s.now <= s.queue[i].start.value.at
    requires forall x :: x in s.queue && x.start.Some? ==> s.queue[i].start.value.at <= x.start.value.at
    requires forall x :: x in s.running ==> s.queue[i].start.value.at < x.finish
    ensures e.Starts? && CanHappen(c, s, e) && InHeapOrder(s, e)
  {
    hide LastProducer;
    var r := s.queue[i].request;
    if Waits(c, s, r) {
      var t := LastOfProducers(s.inflight, r.prefix[HitCount(s.cache.resident, r.prefix)..]);
      e := Starts(i, t);
    } else {
      e := Starts(i, 0.0);
    }
  }

  // --- every request finishes once ------------------------------------------

  function Queued(queue: seq<Item>): multiset<Request> {
    if queue == [] then multiset{} else multiset{queue[0].request} + Queued(queue[1..])
  }

  function Served(running: seq<Running>): multiset<Request> {
    if running == [] then multiset{} else multiset{running[0].request} + Served(running[1..])
  }

  lemma {:induction false} QueuedConcat(a: seq<Item>, b: seq<Item>)
    ensures Queued(a + b) == Queued(a) + Queued(b)
  {
    if a == [] {
      assert a + b == b;
    } else {
      assert (a + b)[1..] == a[1..] + b;
      QueuedConcat(a[1..], b);
    }
  }

  lemma {:induction false} ServedConcat(a: seq<Running>, b: seq<Running>)
    ensures Served(a + b) == Served(a) + Served(b)
  {
    if a == [] {
      assert a + b == b;
    } else {
      assert (a + b)[1..] == a[1..] + b;
      ServedConcat(a[1..], b);
    }
  }

  lemma {:induction false} ScheduleKeepsRequests(queue: seq<Item>, room: int, now: real)
    ensures Queued(Schedule(queue, room, now)) == Queued(queue)
  {
    if queue != [] && room > 0 {
      var rest := Schedule(queue[1..], if queue[0].start.Some? then room else room - 1, now);
      ScheduleKeepsRequests(queue[1..], if queue[0].start.Some? then room else room - 1, now);
      assert Schedule(queue, room, now)[1..] == rest;
    }
  }

  lemma OneQueuedRequest(x: Item)
    ensures Queued([x]) == multiset{x.request}
  {
    assert Queued([x]) == multiset{x.request} + Queued([]);
  }

  lemma OneServed(x: Running)
    ensures Served([x]) == multiset{x.request}
  {
    assert Served([x]) == multiset{x.request} + Served([]);
  }

  lemma {:induction false} QueuedWithout(queue: seq<Item>, i: nat)
    requires i < |queue|
    ensures Queued(queue) == Queued(queue[..i] + queue[i + 1..]) + multiset{queue[i].request}
  {
    hide Queued;
    var x := [queue[i]];
    OneQueuedRequest(queue[i]);
    assert queue == queue[..i] + (x + queue[i + 1..]);
    QueuedConcat(queue[..i], x + queue[i + 1..]);
    QueuedConcat(x, queue[i + 1..]);
    QueuedConcat(queue[..i], queue[i + 1..]);
  }

  lemma {:induction false} ServedWithout(running: seq<Running>, j: nat)
    requires j < |running|
    ensures Served(running) == Served(running[..j] + running[j + 1..]) + multiset{running[j].request}
  {
    hide Served;
    var x := [running[j]];
    OneServed(running[j]);
    assert running == running[..j] + (x + running[j + 1..]);
    ServedConcat(running[..j], x + running[j + 1..]);
    ServedConcat(x, running[j + 1..]);
    ServedConcat(running[..j], running[j + 1..]);
  }

  /** The requests an event brings, and those it completes. */
  function Brought(e: Event): multiset<Request> { if e.Arrives? then multiset{e.request} else multiset{} }

  function Completed(s: Node, e: Event): multiset<Request> {
    if e.Finishes? && e.index < |s.running| then multiset{s.running[e.index].request} else multiset{}
  }

  lemma ArrivalConserves(c: Config, s: Node, r: Request, visible: nat, at: real)
    ensures var t := OnArrival(c, s, r, visible, at);
            t.running == s.running && Queued(t.queue) == Queued(s.queue) + multiset{r}
  {
    hide Queued; hide Schedule; hide ScheduledCount; hide InputTokens;
    var x := Item(r, InputTokens(r) - visible, None);
    var q := s.queue + [x];
    QueuedConcat(s.queue, [x]);
    OneQueuedRequest(x);
    ScheduleKeepsRequests(q, c.concurrency - s.activeRequests - ScheduledCount(q), at);
  }

  lemma WaitConserves(s: Node, i: nat, until: real)
    requires i < |s.queue| && s.queue[i].start.Some? && WellFormed(s.queue[i].request)
    ensures var t := Wait(s, i, until); t.running == s.running && Queued(t.queue) == Queued(s.queue)
  {
    hide Queued; hide Awaited; hide WaitTokens;
    var t := Wait(s, i, until);
    QueuedWithout(s.queue, i);
    QueuedWithout(t.queue, i);
    assert t.queue[..i] + t.queue[i + 1..] == s.queue[..i] + s.queue[i + 1..];
  }

  lemma BeginConserves(c: Config, s: Node, i: nat)
    requires i < |s.queue| && s.queue[i].start.Some? && WellFormed(s.queue[i].request)
    ensures var t := Begin(c, s, i); Queued(t.queue) + Served(t.running) == Queued(s.queue) + Served(s.running)
  {
    hide Queued; hide Served; hide LookedUp; hide Produce; hide AddPins; hide InputTokens;
    var x := Started(c, s, i);
    QueuedWithout(s.queue, i);
    ServedConcat(s.running, [x]);
    OneServed(x);
  }

  lemma FinishConserves(c: Config, s: Node, j: nat)
    requires j < |s.running| && s.running[j].hitBlocks <= |s.running[j].request.prefix|
    ensures var t := OnFinish(c, s, j);
            Queued(t.queue) == Queued(s.queue) && Served(s.running) == Served(t.running) + multiset{s.running[j].request}
  {
    hide Queued; hide Served; hide Schedule; hide ScheduledCount; hide Placed; hide Retire; hide DropPins;
    ServedWithout(s.running, j);
    var t := Finalized(c, s, j);
    ScheduleKeepsRequests(t.queue, c.concurrency - t.activeRequests - ScheduledCount(t.queue), t.now);
  }

  /** No event loses a request or serves one twice. */
  lemma EventConserves(c: Config, s: Node, e: Event)
    requires CanHappen(c, s, e)
    ensures var t := Happens(c, s, e);
            Queued(t.queue) + Served(t.running) + Completed(s, e) == Queued(s.queue) + Served(s.running) + Brought(e)
  {
    hide Queued; hide Served; hide Due; hide Awaited; hide LastProducer; hide OnArrival; hide Wait; hide Begin; hide OnFinish;
    hide Waits;
    match e
    case Arrives(r, visible, at) => ArrivalConserves(c, s, r, visible, at);
    case Starts(i, until) =>
      if Waits(c, s, s.queue[i].request) { WaitConserves(s, i, until); } else { BeginConserves(c, s, i); }
    case Finishes(j) => FinishConserves(c, s, j);
  }

  function AllBrought(events: seq<Event>): multiset<Request>
    decreases |events|
  {
    if events == [] then multiset{} else AllBrought(events[..|events| - 1]) + Brought(events[|events| - 1])
  }

  function AllCompleted(states: seq<Node>, events: seq<Event>): multiset<Request>
    requires |events| <= |states|
    decreases |events|
  {
    if events == [] then multiset{}
    else AllCompleted(states, events[..|events| - 1]) + Completed(states[|events| - 1], events[|events| - 1])
  }

  ghost predicate Conserved(t: Node, done: multiset<Request>, brought: multiset<Request>) {
    Queued(t.queue) + Served(t.running) + done == brought
  }

  lemma ConservedOn(c: Config, s: Node, e: Event, done: multiset<Request>, brought: multiset<Request>)
    requires CanHappen(c, s, e) && Conserved(s, done, brought)
    ensures Conserved(Happens(c, s, e), done + Completed(s, e), brought + Brought(e))
  {
    hide CanHappen; hide Happens; hide Queued; hide Served; hide Completed; hide Brought;
    EventConserves(c, s, e);
    var t := Happens(c, s, e);
    assert Queued(t.queue) + Served(t.running) + (done + Completed(s, e))
        == (Queued(t.queue) + Served(t.running) + Completed(s, e)) + done;
    assert (Queued(s.queue) + Served(s.running) + Brought(e)) + done
        == (Queued(s.queue) + Served(s.running) + done) + Brought(e);
  }

  /** Whatever arrived is queued, running or finished, each once. */
  lemma {:induction false} RunConserves(c: Config, policy: Policy, states: seq<Node>, events: seq<Event>)
    requires IsRun(c, states, events) && states[0] == Idle(policy)
    ensures Conserved(states[|events|], AllCompleted(states, events), AllBrought(events))
    decreases |events|
  {
    hide CanHappen; hide Happens; hide Queued; hide Served; hide Completed; hide Brought;
    if events == [] {
      IdleConserves(policy);
    } else {
      hide Conserved;
      var n := |events| - 1;
      FrontIsRun(c, states, events);
      RunConserves(c, policy, states[..n + 1], events[..n]);
      CompletedOfPrefix(states, events[..n], n + 1);
      ConservedOn(c, states[n], events[n], AllCompleted(states, events[..n]), AllBrought(events[..n]));
    }
  }

  lemma IdleConserves(policy: Policy)
    ensures Conserved(Idle(policy), multiset{}, multiset{})
  {
  }

  lemma FrontIsRun(c: Config, states: seq<Node>, events: seq<Event>)
    requires IsRun(c, states, events) && events != []
    ensures IsRun(c, states[..|events|], events[..|events| - 1])
  {
    hide CanHappen; hide Happens;
    var n := |events| - 1;
    forall i | 0 <= i < n
      ensures CanHappen(c, states[..n + 1][i], events[..n][i])
              && states[..n + 1][i + 1] == Happens(c, states[..n + 1][i], events[..n][i])
    {
      assert CanHappen(c, states[i], events[i]) && states[i + 1] == Happens(c, states[i], events[i]);
    }
  }

  lemma {:induction false} CompletedOfPrefix(states: seq<Node>, events: seq<Event>, n: nat)
    requires |events| <= n <= |states|
    ensures AllCompleted(states[..n], events) == AllCompleted(states, events)
    decreases |events|
  {
    if events != [] { CompletedOfPrefix(states, events[..|events| - 1], n); }
  }

  /** When nothing but arrivals can happen any more, exactly the requests that arrived have finished,
      each as often as it arrived. */
  lemma {:induction false} DrainedMeansServed(c: Config, policy: Policy, states: seq<Node>, events: seq<Event>)
    requires Sound(policy) && Tracked(policy) == {} && c.tokenMs >= 0.0 && c.concurrency > 0
    requires IsRun(c, states, events) && states[0] == Idle(policy)
    requires forall e: Event :: !e.Arrives? && InHeapOrder(states[|events|], e) ==> !CanHappen(c, states[|events|], e)
    ensures AllCompleted(states, events) == AllBrought(events)
  {
    hide Inv; hide CanHappen; hide InHeapOrder; hide IsRun; hide AllCompleted; hide AllBrought;
    RunLength(c, states, events);
    EveryRunKeeps(c, policy, states, events, |events|);
    RunConserves(c, policy, states, events);
    var t := states[|events|];
    if t.queue != [] || t.running != [] {
      var e := WorkGoesOn(c, t);
      assert false;
    }
  }

  lemma RunLength(c: Config, states: seq<Node>, events: seq<Event>)
    requires IsRun(c, states, events)
    ensures |states| == |events| + 1
  {
  }
}
