/** The event loop terminates, whatever its aborts name, unless fences put decodes off without end.
    The lexicographic measure: the work left in the slots of the workload, the DECODE_START events
    that will find their node still booked, a potential that every delay has to lower, and the size
    of the queue. */
module KernelTermination {
  import opened Options
  import opened KernelModel
  import opened KernelSteps
  import opened KernelSafety
  import opened KernelInvariant
  import opened KernelHandlers
  import opened KernelRuns

  type Slot = (string, int)

  /** One token for every stage still ahead of every slot. */
  function Ahead(rank: map<Slot, nat>): set<(Slot, nat)> {
    set x, r: nat | x in rank.Keys && 0 <= r < rank[x] :: (x, r)
  }

  predicate TooEarly(s: State, e: Event) {
    && e.kind.DecodeStart? && e.payload.Concerns? && e.payload.key in s.pending
    && s.pending[e.payload.key].spec.dNode in s.dNodes
    && e.at < s.dNodes[s.pending[e.payload.key].spec.dNode].available
  }

  /** DECODE_START events that lie before the end of their node's booking. */
  function Early(s: State): set<Event> {
    set e | e in s.queue && TooEarly(s, e)
  }

  /** What a delay has to lower: any number that depends on the attempt, the time, and how far the
      attempts of the workload have come. */
  type Potential = (map<Slot, nat>, Key, real) -> nat

  function Cost(pay: Potential, rank: map<Slot, nat>, e: Event): nat {
    if e.kind.DecodeStart? && e.payload.Concerns? then pay(rank, e.payload.key, e.at) else 0
  }

  /** The potential of all queued DECODE_START events. */
  ghost function Weight(pay: Potential, rank: map<Slot, nat>, queue: set<Event>): nat {
    if queue == {} then 0
    else
      var e :| e in queue;
      Cost(pay, rank, e) + Weight(pay, rank, queue - {e})
  }

  ghost predicate Descends(pay: Potential, s: State, t: State) {
    || Ahead(t.alog.rank) < Ahead(s.alog.rank)
    || (t.alog.rank == s.alog.rank && Early(t) < Early(s))
    || (t.alog.rank == s.alog.rank && Early(t) <= Early(s)
        && Weight(pay, t.alog.rank, t.queue) < Weight(pay, s.alog.rank, s.queue))
    || (t.alog.rank == s.alog.rank && Early(t) <= Early(s)
        && Weight(pay, t.alog.rank, t.queue) <= Weight(pay, s.alog.rank, s.queue) && |t.queue| < |s.queue|)
  }

  lemma {:induction false} WeightSplits(pay: Potential, rank: map<Slot, nat>, queue: set<Event>, e: Event)
    requires e in queue
    ensures Weight(pay, rank, queue) == Cost(pay, rank, e) + Weight(pay, rank, queue - {e})
    decreases |queue|
  {
    hide Cost;
    var x :| x in queue && Weight(pay, rank, queue) == Cost(pay, rank, x) + Weight(pay, rank, queue - {x});
    if x != e {
      WeightSplits(pay, rank, queue - {x}, e);
      WeightSplits(pay, rank, queue - {e}, x);
      assert queue - {x} - {e} == queue - {e} - {x};
    }
  }

  lemma LoweringShrinks(rank: map<Slot, nat>, x: Slot, r: nat)
    requires x in rank && r < rank[x]
    ensures Ahead(rank[x := r]) < Ahead(rank)
  {
    assert (x, r) in Ahead(rank) && (x, r) !in Ahead(rank[x := r]);
    assert Ahead(rank[x := r]) <= Ahead(rank);
  }

  /** Moving an attempt to a lower stage spends a token of its slot. */
  lemma MovingShrinks(c: Config, w: map<string, Request>, s: State, k: Key, st: Stage)
    requires Slotted(c, w, s.alog.stage, s.alog.slot, s.alog.owner, s.alog.rank)
    requires k in s.alog.stage && Rank(st) < Rank(s.alog.stage[k])
    ensures Ahead(Moved(s.alog, k, st).rank) < Ahead(s.alog.rank)
  {
    hide Rank; hide Ahead;
    assert TakesSlot(c, s.alog.stage, s.alog.owner, s.alog.rank, k, s.alog.slot[k]);
    LoweringShrinks(s.alog.rank, (k.0, s.alog.slot[k]), Rank(st));
  }

  lemma SlotsOf(c: Config, w: map<string, Request>, s: State, loose: set<Key>, bound: nat)
    requires SafeBut(c, w, s, loose, bound)
    ensures Slotted(c, w, s.alog.stage, s.alog.slot, s.alog.owner, s.alog.rank)
  {
    hide Slotted; hide PrefillPool; hide DecodePool;
  }

  lemma ReadyDescends(c: Config, w: map<string, Request>, s: State, k: Key)
    requires SafeBut(c, w, s, {k}, s.serial) && NoneIdle(s) && k in s.planned && k in s.alog.stage
    requires s.alog.stage[k].Planned?
    ensures OnReady(c, s, k).Ok? && Ahead(OnReady(c, s, k).value.alog.rank) < Ahead(s.alog.rank)
  {
    hide Kept; hide PrefillPool; hide DecodePool; hide LeastIndex; hide MaximumPrefillWork; hide Moved; hide Ahead;
    EnqueueKeeps(c, w, s, k);
    SlotsOf(c, w, s, {k}, s.serial);
    MovingShrinks(c, w, s, k, Waiting);
    var n, t := s.planned[k].spec.pNode, Enqueue(c, s, k);
    if !s.pNodes[n].busy {
      PoolKeys(c, w, s.alog.stage, s.pending, s.now, s.pNodes, s.serial);
      DispatchShrinks(c, w, t, {}, n, s.now, s.serial + 1);
    }
  }

  lemma DispatchShrinks(c: Config, w: map<string, Request>, s: State, loose: set<Key>, n: string, at: real, bound: nat)
    requires SafeBut(c, w, s, loose, bound) && n in s.pNodes && s.now <= at
    requires !s.pNodes[n].busy && s.pNodes[n].waiting != [] && s.pNodes[n].waiting[0].key !in loose
    ensures Ahead(Dispatch(s, n, at).alog.rank) < Ahead(s.alog.rank)
  {
    hide Kept; hide PrefillPool; hide DecodePool; hide LeastIndex; hide Moved; hide Ahead; hide Dispatch; hide Dispatched;
    DispatchKeepsSafe(c, w, s, loose, n, at, bound);
    DispatchFields(s, n, at);
    var k := s.pNodes[n].waiting[LeastIndex(s.pNodes[n].waiting)].key;
    SlotsOf(c, w, s, loose, bound);
    MovingShrinks(c, w, s, k, Scheduled(NextEvent(s, at, PrefillStart, k)));
  }

  lemma HandOverShrinks(c: Config, w: map<string, Request>, s: State, k: Key)
    requires SafeBut(c, w, s, {k}, s.serial) && NoneIdle(s) && k in s.pending && k in s.alog.stage
    requires s.alog.stage[k].Prefilling? && s.alog.stage[k].event.at <= s.now
    ensures s.pending[k].spec.pNode in s.pNodes
    ensures Ahead(HandOver(s, k, s.pending[k].spec.pNode).alog.rank) < Ahead(s.alog.rank)
  {
    hide Kept; hide PrefillPool; hide DecodePool; hide LeastIndex; hide Ahead; hide Dispatch;
    ReleaseKeeps(c, w, s, k);
    SlotsOf(c, w, s, {k}, s.serial);
    MovingShrinks(c, w, s, k, Prefilled);
    var n := s.pending[k].spec.pNode;
    var t := Release(s, k, n);
    var q := s.pNodes[n].waiting;
    if q != [] {
      FrontWaits(c, w, t, k, n);
      DispatchShrinks(c, w, t, {k}, n, Max(s.now, q[LeastIndex(q)].at), t.serial);
    }
  }

  lemma BeginShrinks(c: Config, w: map<string, Request>, s: State, k: Key, lease: Option<int>)
    requires Slotted(c, w, s.alog.stage, s.alog.slot, s.alog.owner, s.alog.rank)
    requires k in s.pending && k in s.alog.stage
    requires s.alog.stage[k].Prefilled? || s.alog.stage[k].Gated?
    requires s.pending[k].spec.dNode in s.dNodes && BeginDecode(c, s, k, lease).Ok?
    ensures Ahead(BeginDecode(c, s, k, lease).value.alog.rank) < Ahead(s.alog.rank)
  {
    hide Slotted; hide Ahead; hide Moved;
    var finish := s.now + DecodeWork(c, s.pending[k].spec.emittedTokens);
    MovingShrinks(c, w, s, k, if lease.Some? then Leased(NextEvent(s, s.now + DecodeWork(c, lease.value), LeaseBoundary, k))
                                   else Completing(NextEvent(s, finish, Completion, k)));
  }

  lemma StartShrinks(c: Config, w: map<string, Request>, s: State, k: Key)
    requires Slotted(c, w, s.alog.stage, s.alog.slot, s.alog.owner, s.alog.rank)
    requires k in s.pending && k in s.alog.stage && s.alog.stage[k].Scheduled?
    requires OnPrefillStart(c, s, k).Ok?
    ensures Ahead(OnPrefillStart(c, s, k).value.alog.rank) < Ahead(s.alog.rank)
  {
    hide Slotted; hide Ahead; hide Moved; hide Priced; hide QueueWork;
    var item := Priced(c, s.pending[k].(prefillStart := Some(s.now)), s.cache);
    MovingShrinks(c, w, s, k,
                  Prefilling(NextEvent(s, s.now + item.prefillWork + item.kvsWork, PrefillFinish, k)));
  }

  lemma PrefillFinishShrinks(c: Config, w: map<string, Request>, s: State, k: Key, fence: real, lease: Option<int>)
    requires ValidConfig(c) && SafeBut(c, w, s, {k}, s.serial) && NoneIdle(s) && k in s.pending && k in s.alog.stage
    requires s.alog.stage[k].Prefilling? && s.alog.stage[k].event.at <= s.now
    requires OnPrefillFinish(c, s, k, fence, lease).Ok?
    ensures Ahead(OnPrefillFinish(c, s, k, fence, lease).value.alog.rank) < Ahead(s.alog.rank)
  {
    hide SafeBut; hide HandOver; hide Ahead; hide Moved; hide BeginDecode;
    HandOverKeeps(c, w, s, k);
    HandOverShrinks(c, w, s, k);
    var t := HandOver(s, k, s.pending[k].spec.pNode);
    var start := Max(s.now, Max(s.dNodes[s.pending[k].spec.dNode].available, fence));
    SlotsOf(c, w, t, {k}, t.serial);
    if start > s.now {
      GateShrinks(c, w, t, k, start);
    } else {
      BeginShrinks(c, w, t, k, lease);
    }
  }

  lemma GateShrinks(c: Config, w: map<string, Request>, s: State, k: Key, at: real)
    requires Slotted(c, w, s.alog.stage, s.alog.slot, s.alog.owner, s.alog.rank)
    requires k in s.alog.stage && s.alog.stage[k].Prefilled?
    ensures Ahead(Gate(s, k, at).alog.rank) < Ahead(s.alog.rank)
  {
    hide Slotted; hide Ahead; hide Moved;
    MovingShrinks(c, w, s, k, Gated(NextEvent(s, at, DecodeStart, k)));
  }

  lemma LeaseShrinks(c: Config, w: map<string, Request>, s: State, k: Key, revised: Spec, order: seq<Key>)
    requires Slotted(c, w, s.alog.stage, s.alog.slot, s.alog.owner, s.alog.rank)
    requires k in s.pending && k in s.alog.stage && s.alog.stage[k].Leased?
    requires OnLeaseBoundary(c, s, k, revised, order).Ok?
    ensures Ahead(OnLeaseBoundary(c, s, k, revised, order).value.alog.rank) < Ahead(s.alog.rank)
  {
    hide Slotted; hide Ahead; hide Moved; hide Wake; hide ElapsedTokens; hide CutShort;
    if revised.terminal.Aborted? {
      var emitted := ElapsedTokens(s.now - s.pending[k].decodeStart.value, c.cost.decodePerToken).value;
      WakeFields(EndLease(s, k, revised, emitted), order);
      var woken := Wake(EndLease(s, k, revised, emitted), order);
      MovingShrinks(c, w, s, k, Completing(NextEvent(woken, s.now, Completion, k)));
    } else {
      MovingShrinks(c, w, s, k, Completing(NextEvent(s, s.pending[k].finish.value, Completion, k)));
    }
  }

  lemma CompletionShrinks(c: Config, w: map<string, Request>, s: State, k: Key, m: Mutation, retry: Option<Spec>)
    requires ValidRequests(w) && SafeBut(c, w, s, {k}, s.serial) && NoneIdle(s) && k in s.pending && k in s.alog.stage
    requires s.alog.stage[k].Completing? && s.alog.stage[k].event.at == s.now <= c.observationEnd
    requires OnCompletion(c, s, k, m, retry).Ok?
    ensures Ahead(OnCompletion(c, s, k, m, retry).value.alog.rank) < Ahead(s.alog.rank)
  {
    hide SafeBut; hide CacheAfter; hide ItemFits; hide Arrived; hide Ahead; hide Settle;
    hide RetrySlot; hide OvertimeSlot; hide Vacant;
    var item := s.pending[k];
    CompletingItem(c, w, s, k);
    CacheStaysBounded(c, s.cache, item, m);
    var t := Settle(s, k).(cache := CacheAfter(c, s.cache, item, m).value);
    SettleKeeps(c, w, s, k, t.cache);
    SettleFields(s, k);
    SlotsOf(c, w, s, {k}, s.serial);
    SettleShrinks(c, w, s, k);
    if !item.spec.terminal.Completed? && retry.Some? {
      RetryFindsSlot(c, w, s, k);
      SettledIsVacant(c, w, s, k, t);
      var slot := RetrySlot(c, k, s.now);
      IssueKeeps(c, w, t, item.request, retry.value, Max(s.now, retry.value.arrivalWork), slot);
      LoweringShrinks(t.alog.rank, (item.request.id, slot), 8);
    }
  }

  lemma SettleShrinks(c: Config, w: map<string, Request>, s: State, k: Key)
    requires Slotted(c, w, s.alog.stage, s.alog.slot, s.alog.owner, s.alog.rank)
    requires k in s.alog.stage && s.alog.stage[k].Completing?
    ensures Ahead(Settle(s, k).alog.rank) < Ahead(s.alog.rank)
  {
    hide Slotted; hide Ahead; hide Moved;
    MovingShrinks(c, w, s, k, Done);
  }

  /** The fence puts a gated decode off beyond the time its node is free. */
  predicate PutsOff(s: State, e: Event, a: Answers) {
    && e.kind.DecodeStart? && e.payload.Concerns? && e.payload.key in s.pending
    && s.pending[e.payload.key].decodeStart.None? && s.pending[e.payload.key].spec.dNode in s.dNodes
    && a.fence > Max(e.at, s.dNodes[s.pending[e.payload.key].spec.dNode].available)
  }

  /** ... and lowers the potential by it. */
  predicate Pays(s: State, e: Event, a: Answers, pay: Potential) {
    PutsOff(s, e, a) ==>
      pay(s.alog.rank, e.payload.key, a.fence) < pay(s.alog.rank, e.payload.key, e.at)
  }

  /** A gated attempt that is put off comes back when its node's booking ends, so one early
      wake-up disappears, or when its fence says, so some potential is used up. */
  lemma RegatingDescends(c: Config, w: map<string, Request>, s: State, e: Event, a: Answers, pay: Potential)
    requires Safe(c, w, s) && e in s.queue && IsNext(s.queue, e) && Pays(s, e, a, pay)
    requires e.payload.Concerns? && e.payload.key in s.alog.stage && e.kind.DecodeStart?
    requires s.alog.stage[e.payload.key].Gated? && e.payload.key in s.pending
    requires s.pending[e.payload.key].spec.dNode in s.dNodes && s.pending[e.payload.key].decodeStart.None?
    requires Max(s.dNodes[s.pending[e.payload.key].spec.dNode].available, a.fence) > e.at
    ensures var at := Max(s.dNodes[s.pending[e.payload.key].spec.dNode].available, a.fence);
            Descends(pay, s, Gate(Pop(s, e), e.payload.key, at))
  {
    hide PrefillPool; hide DecodePool; hide Timely; hide Staged; hide Tabled; hide Timed; hide Arriving; hide Finished;
    hide Cached; hide IsNext; hide Weight; hide Ahead; hide Early; hide OvertimeSlot;
    var k := e.payload.key;
    var v := s.dNodes[s.pending[k].spec.dNode];
    var at := Max(v.available, a.fence);
    var t := Gate(Pop(s, e), k, at);
    assert TakesSlot(c, s.alog.stage, s.alog.owner, s.alog.rank, k, s.alog.slot[k]);
    assert t.alog.rank == s.alog.rank;
    FewerEarly(s, e, k, at);
    if a.fence > v.available {
      assert NextEvent(s, at, DecodeStart, k) !in s.queue by { FreshSerial(s, at, k); }
      DelayedEvent(pay, s.alog.rank, s.queue, e, NextEvent(s, at, DecodeStart, k));
    }
  }

  lemma FreshSerial(s: State, at: real, k: Key)
    requires Timely(s.now, s.queue, s.serial)
    ensures NextEvent(s, at, DecodeStart, k) !in s.queue
  {
  }

  lemma FewerEarly(s: State, e: Event, k: Key, at: real)
    requires e in s.queue && e.kind.DecodeStart? && e.payload == Concerns(k) && k in s.pending
    requires s.pending[k].spec.dNode in s.dNodes && at >= s.dNodes[s.pending[k].spec.dNode].available
    ensures Early(Gate(Pop(s, e), k, at)) <= Early(s)
    ensures s.dNodes[s.pending[k].spec.dNode].available > e.at ==> Early(Gate(Pop(s, e), k, at)) < Early(s)
  {
    var t := Gate(Pop(s, e), k, at);
    assert t.queue == s.queue - {e} + {NextEvent(s, at, DecodeStart, k)};
    assert Early(t) <= Early(s) - {e};
    if s.dNodes[s.pending[k].spec.dNode].available > e.at { assert e in Early(s); }
  }

  /** Putting one event off lowers the weight. */
  lemma {:induction false} DelayedEvent(pay: Potential, rank: map<Slot, nat>, queue: set<Event>, e: Event, f: Event)
    requires e in queue && f !in queue && Cost(pay, rank, f) < Cost(pay, rank, e)
    ensures Weight(pay, rank, queue - {e} + {f}) < Weight(pay, rank, queue)
  {
    hide Weight; hide Cost;
    WeightSplits(pay, rank, queue, e);
    WeightSplits(pay, rank, queue - {e} + {f}, f);
    assert queue - {e} + {f} - {f} == queue - {e};
  }

  lemma ShrunkQueue(pay: Potential, s: State, e: Event)
    requires e in s.queue
    ensures Descends(pay, s, Pop(s, e))
  {
    hide Weight; hide Cost; hide Ahead;
    WeightSplits(pay, s.alog.rank, s.queue, e);
    assert s.queue == Pop(s, e).queue + {e};
  }

  /** Handling an attempt's own event either spends a token or re-gates a too early decode. */
  lemma OwnStepDescends(c: Config, w: map<string, Request>, s: State, e: Event, a: Answers, pay: Potential)
    requires e.at <= c.observationEnd
    requires ValidConfig(c) && ValidRequests(w) && Safe(c, w, s) && e in s.queue && IsNext(s.queue, e)
    requires e.payload.Concerns? && e.payload.key in s.alog.stage && EventFits(e, s.alog.stage[e.payload.key])
    requires !e.kind.Arrival? && Step(c, s, e, a).Ok? && Pays(s, e, a, pay)
    requires e.kind.DecodeStart? ==> s.alog.stage[e.payload.key].Gated?
    ensures Descends(pay, s, Step(c, s, e, a).value)
  {
    hide Safe; hide SafeBut; hide IsNext; hide Late; hide Ahead; hide Early;
    hide OnReady; hide OnPrefillStart; hide OnPrefillFinish; hide OnLeaseBoundary; hide OnCompletion; hide Gate; hide BeginDecode;
    PopOwn(c, w, s, e);
    var k, t := e.payload.key, Pop(s, e);
    SlotsOf(c, w, t, {k}, t.serial);
    match e.kind
    case AttemptReady => ReadyDescends(c, w, t, k);
    case PrefillStart => StartShrinks(c, w, t, k);
    case PrefillFinish => PrefillFinishShrinks(c, w, t, k, a.fence, a.leaseTokens);
    case DecodeStart =>
      if Max(s.dNodes[s.pending[k].spec.dNode].available, a.fence) > e.at {
        RegatingDescends(c, w, s, e, a, pay);
      } else {
        BeginShrinks(c, w, t, k, a.leaseTokens);
      }
    case LeaseBoundary => LeaseShrinks(c, w, t, k, a.revised, a.wakeOrder);
    case Completion => CompletionShrinks(c, w, t, k, a.mutation, a.retry);
  }

  lemma ArrivalDescends(c: Config, w: map<string, Request>, s: State, e: Event, a: Answers, pay: Potential)
    requires Safe(c, w, s) && e in s.queue && IsNext(s.queue, e) && e.payload.Arrives? && Step(c, s, e, a).Ok?
    ensures Descends(pay, s, Step(c, s, e, a).value)
  {
    hide Kept; hide PrefillPool; hide DecodePool; hide IsNext; hide Arrived; hide Ahead; hide Early; hide Rank;
    ArrivalMeans(c, w, s, e);
    PopArrival(c, w, s, e);
    PopKeeps(c, w, s, e, {});
    var r, t := e.payload.request, Pop(s, e);
    if a.plans == [] {
      ShrunkQueue(pay, s, e);
    } else {
      IssueKeeps(c, w, t, r, a.plans[0], a.plans[0].arrivalWork, -1);
      var at := NextEvent(t, a.plans[0].arrivalWork, AttemptReady, (a.plans[0].id, a.plans[0].index));
      RankOfPlanned(at);
      LoweringShrinks(s.alog.rank, (r.id, -1), Rank(Planned(at)));
    }
  }

  lemma RankOfPlanned(e: Event)
    ensures Rank(Planned(e)) < UNISSUED
  {
  }

  /** Every step within the horizon lowers the measure, if the fence pays for its delay. */
  lemma StepDescends(c: Config, w: map<string, Request>, s: State, e: Event, a: Answers, pay: Potential)
    requires e.at <= c.observationEnd
    requires ValidConfig(c) && ValidRequests(w) && Safe(c, w, s)
    requires e in s.queue && IsNext(s.queue, e) && Step(c, s, e, a).Ok? && Pays(s, e, a, pay)
    ensures Descends(pay, s, Step(c, s, e, a).value)
  {
    hide PrefillPool; hide DecodePool; hide Tabled; hide Slotted; hide Timed; hide Arriving; hide Finished; hide Timely; hide IsNext;
    hide Step; hide NoIdle; hide Descends;
    if e.payload.Arrives? {
      ArrivalDescends(c, w, s, e, a, pay);
    } else {
      MainEventMeans(s.queue, s.alog.stage, e);
      if e.kind.DecodeStart? && Started(s.alog.stage[e.payload.key]) {
        DuplicateStepKeeps(c, w, s, e, a);
        ShrunkQueue(pay, s, e);
      } else {
        OwnStepDescends(c, w, s, e, a, pay);
      }
    }
  }

  // --- no infinite run ------------------------------------------------------

  /** An endless history of the loop, turn by turn. */
  ghost predicate Follows(c: Config, states: nat -> State, turns: nat -> Turn, i: nat) {
    && Legal(c, states(i), turns(i))
    && Step(c, states(i), turns(i).event, turns(i).answers) == Ok(states(i + 1))
  }

  /** Turn `i` is taken and pays for the delay it causes. */
  ghost predicate FollowsPaying(c: Config, states: nat -> State, turns: nat -> Turn, pay: Potential, i: nat) {
    Follows(c, states, turns, i) && Pays(states(i), turns(i).event, turns(i).answers, pay)
  }

  /** From any safe state and for any policy, some turn is the last or does not pay for its delay:
      the queue runs dry, the horizon is passed or an answer is refused. */
  lemma {:induction false} SomeTurnIsLast(c: Config, w: map<string, Request>, states: nat -> State, turns: nat -> Turn,
                                          pay: Potential, i: nat)
    requires ValidConfig(c) && ValidRequests(w) && Safe(c, w, states(i))
    ensures exists n :: n >= i && !FollowsPaying(c, states, turns, pay, n)
    decreases Ahead(states(i).alog.rank), Early(states(i)), Weight(pay, states(i).alog.rank, states(i).queue),
              |states(i).queue|
  {
    hide Safe; hide Step; hide ValidConfig; hide ValidRequests; hide Ahead; hide Early; hide Weight; hide Pays;
    if FollowsPaying(c, states, turns, pay, i) {
      StepKeeps(c, w, states(i), turns(i).event, turns(i).answers);
      StepDescends(c, w, states(i), turns(i).event, turns(i).answers, pay);
      SomeTurnIsLast(c, w, states, turns, pay, i + 1);
      var n :| n >= i + 1 && !FollowsPaying(c, states, turns, pay, n);
      assert n >= i;
    }
  }

  /** Every run in which some potential pays for all delays ends. */
  lemma EveryRunEnds(c: Config, workload: seq<Request>, states: nat -> State, turns: nat -> Turn, pay: Potential)
    requires ValidConfig(c) && ValidWorkload(c, workload) && states(0) == Initial(c, workload)
    ensures exists n: nat :: !FollowsPaying(c, states, turns, pay, n)
  {
    hide FollowsPaying; hide Safe;
    InitialIsSafe(c, workload);
    SomeTurnIsLast(c, ById(workload), states, turns, pay, 0);
  }

  // --- fences that delay by a minimum ---------------------------------------

  predicate Spaced(s: State, e: Event, a: Answers, delta: real) {
    PutsOff(s, e, a) ==> a.fence >= e.at + delta
  }

  function ByDelay(c: Config, delta: real): Potential
    requires delta > 0.0
  {
    (rank: map<Slot, nat>, k: Key, at: real) => DelaysLeft(c.observationEnd, delta, at)
  }

  lemma SpacedPays(c: Config, s: State, e: Event, a: Answers, delta: real)
    requires delta > 0.0 && e.at <= c.observationEnd && Spaced(s, e, a, delta)
    ensures Pays(s, e, a, ByDelay(c, delta))
  {
    hide DelaysLeft;
    if PutsOff(s, e, a) { DelayCosts(c.observationEnd, delta, e.at, a.fence); }
  }

  /** An endless run puts decodes off by arbitrarily small delays. */
  lemma EndlessRunsDelayLessAndLess(c: Config, workload: seq<Request>, states: nat -> State, turns: nat -> Turn, delta: real)
    requires ValidConfig(c) && ValidWorkload(c, workload) && states(0) == Initial(c, workload) && delta > 0.0
    requires forall i: nat :: Follows(c, states, turns, i)
    ensures exists n: nat :: turns(n).event.at < turns(n).answers.fence < turns(n).event.at + delta
  {
    hide Follows; hide Pays;
    EveryRunEnds(c, workload, states, turns, ByDelay(c, delta));
    var n: nat :| !FollowsPaying(c, states, turns, ByDelay(c, delta), n);
    assert Follows(c, states, turns, n);
    FollowsInTime(c, states, turns, n);
    if Spaced(states(n), turns(n).event, turns(n).answers, delta) {
      SpacedPays(c, states(n), turns(n).event, turns(n).answers, delta);
    }
  }

  lemma FollowsInTime(c: Config, states: nat -> State, turns: nat -> Turn, n: nat)
    requires Follows(c, states, turns, n)
    ensures turns(n).event.at <= c.observationEnd
  {
  }

  // --- fences that do not change their mind ---------------------------------

  /** The time an attempt is put off to depends on nothing but the attempt and how far all attempts
      have come: asked again before anybody has moved on, the fence answers the same. */
  predicate Stable(s: State, e: Event, a: Answers, gate: (map<Slot, nat>, Key) -> real) {
    PutsOff(s, e, a) ==> a.fence == gate(s.alog.rank, e.payload.key)
  }

  function ByGate(gate: (map<Slot, nat>, Key) -> real): Potential {
    (rank: map<Slot, nat>, k: Key, at: real) => if at < gate(rank, k) then 1 else 0
  }

  lemma StablePays(s: State, e: Event, a: Answers, gate: (map<Slot, nat>, Key) -> real)
    requires Stable(s, e, a, gate)
    ensures Pays(s, e, a, ByGate(gate))
  {
  }

  /** A run whose fences do not change their mind ends: some turn is the last, or its fence does. */
  lemma StableRunsEnd(c: Config, workload: seq<Request>, states: nat -> State, turns: nat -> Turn,
                      gate: (map<Slot, nat>, Key) -> real)
    requires ValidConfig(c) && ValidWorkload(c, workload) && states(0) == Initial(c, workload)
    ensures exists n: nat ::
              !Follows(c, states, turns, n) || !Stable(states(n), turns(n).event, turns(n).answers, gate)
  {
    hide Follows; hide Pays; hide Stable;
    EveryRunEnds(c, workload, states, turns, ByGate(gate));
    var n: nat :| !FollowsPaying(c, states, turns, ByGate(gate), n);
    if Stable(states(n), turns(n).event, turns(n).answers, gate) {
      StablePays(states(n), turns(n).event, turns(n).answers, gate);
    }
  }
}
