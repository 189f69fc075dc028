/** Whole runs of the kernel: the invariant holds in every state of every run, for every policy,
    and only a policy can make a run raise. */
module KernelRuns {
  import opened Options
  import opened KernelModel
  import opened KernelSteps
  import opened KernelSafety
  import opened KernelInvariant
  import opened KernelHandlers

  /** The workload by request id. */
  function ById(workload: seq<Request>): map<string, Request>
    requires forall i, j :: 0 <= i < j < |workload| ==> workload[i].id != workload[j].id
  {
    map i | 0 <= i < |workload| :: workload[i].id := workload[i]
  }

  predicate Aborts(s: State, e: Event, a: Answers) {
    && e.kind.LeaseBoundary? && e.payload.Concerns? && e.payload.key in s.pending
    && a.revised.terminal.Aborted?
  }

  /** The wake order of an abort lists the attempts asleep on the node it frees. */
  ghost predicate ListsSleepers(s: State, e: Event, a: Answers) {
    Aborts(s, e, a) ==> WakesSleepers(Pop(s, e), e.payload.key, a.revised, a.wakeOrder)
  }

  lemma MainEventMeans(queue: set<Event>, stage: map<Key, Stage>, e: Event)
    requires Staged(queue, stage, {}) && e in queue && e.payload.Concerns?
    ensures e.payload.key in stage && EventFits(e, stage[e.payload.key])
    ensures !e.kind.Arrival?
  {
  }

  lemma ArrivalMeans(c: Config, w: map<string, Request>, s: State, e: Event)
    requires Kept(c, w, s, {}) && e in s.queue && e.payload.Arrives?
    ensures var r := e.payload.request;
            && r.id in w && w[r.id] == r && e.at == r.arrivalWork && Arrived(s.queue - {e}, r.id)
            && (r.id, -1) !in s.alog.owner && e.kind.Arrival? && Vacant(c, Pop(s, e), r.id)
  {
    assert forall x :: x in s.alog.owner ==> x.0 == s.alog.owner[x].0 && s.alog.owner[x] in s.alog.stage;
    forall f | f in s.queue - {e} && f.payload.Arrives? ensures f.payload.request.id != e.payload.request.id {
      assert SameArrival(e, f) ==> e == f;
    }
  }

  lemma ArrivalStepKeeps(c: Config, w: map<string, Request>, s: State, e: Event, a: Answers)
    requires Safe(c, w, s) && e in s.queue && IsNext(s.queue, e) && e.payload.Arrives?
    ensures s.now <= e.at
    ensures Step(c, s, e, a).Ok? ==> Safe(c, w, Step(c, s, e, a).value)
  {
    hide Kept; hide PrefillPool; hide DecodePool; hide OnArrival; hide IsNext; hide Arrived;
    ArrivalMeans(c, w, s, e);
    PopArrival(c, w, s, e);
    PopKeeps(c, w, s, e, {});
    if Step(c, s, e, a).Ok? {
      OnArrivalKeeps(c, w, Pop(s, e), e.payload.request, a.plans);
    }
  }

  lemma PopArrival(c: Config, w: map<string, Request>, s: State, e: Event)
    requires Kept(c, w, s, {}) && e in s.queue && e.payload.Arrives?
    ensures Staged(s.queue - {e}, s.alog.stage, {})
  {
    PopDuplicate(s.queue, s.alog.stage, e);
  }

  /** The popped state of an attempt's own event: only that attempt is between stages. */
  lemma PopOwn(c: Config, w: map<string, Request>, s: State, e: Event)
    requires Safe(c, w, s) && e in s.queue && IsNext(s.queue, e) && e.payload.Concerns?
    requires e.payload.key in s.alog.stage && EventFits(e, s.alog.stage[e.payload.key])
    requires e.kind.DecodeStart? ==> s.alog.stage[e.payload.key].Gated?
    ensures SafeBut(c, w, Pop(s, e), {e.payload.key}, s.serial) && NoneIdle(Pop(s, e)) && s.now <= e.at
    ensures var k, st := e.payload.key, s.alog.stage[e.payload.key];
            && (k in s.planned <==> st.Planned?) && (k in s.pending <==> !st.Planned?)
            && (!st.Planned? && !Started(st) ==> s.pending[k].decodeStart.None?)
  {
    hide PrefillPool; hide Staged; hide Tabled; hide Slotted; hide Timed; hide Arriving; hide Finished; hide Timely; hide Booked;
    hide IsNext; hide Late; hide LeaseAligned; hide EventFits;
    var k := e.payload.key;
    assert Staged(s.queue - {e}, s.alog.stage, {k}) by { PopLoosens(s.queue, s.alog.stage, e); }
    PopKeeps(c, w, s, e, {k});
    TableKeys(c, w, s.planned, s.pending, s.issued, s.alog.stage, k);
    assert k in s.pending ==> Decoding(c, s.alog.stage[k], s.pending[k], s.alog.position, s.dNodes, k);
  }

  lemma OwnStepKeeps(c: Config, w: map<string, Request>, s: State, e: Event, a: Answers)
    requires ValidConfig(c) && ValidRequests(w) && Safe(c, w, s) && e in s.queue && IsNext(s.queue, e)
    requires e.payload.Concerns? && e.payload.key in s.alog.stage && EventFits(e, s.alog.stage[e.payload.key])
    requires !e.kind.Arrival? && ListsSleepers(s, e, a) && e.at <= c.observationEnd
    requires e.kind.DecodeStart? ==> s.alog.stage[e.payload.key].Gated?
    ensures Step(c, s, e, a).Ok? ==> Safe(c, w, Step(c, s, e, a).value)
  {
    hide Safe; hide SafeBut; hide IsNext; hide Late; hide Enumerates; hide EndLease;
    hide OnReady; hide OnPrefillStart; hide OnPrefillFinish; hide OnDecodeStart; hide OnLeaseBoundary; hide OnCompletion;
    PopOwn(c, w, s, e);
    var k, t := e.payload.key, Pop(s, e);
    if Step(c, s, e, a).Ok? {
      match e.kind
      case AttemptReady => OnReadyKeeps(c, w, t, k);
      case PrefillStart => StartPrefillKeeps(c, w, t, k);
      case PrefillFinish => OnPrefillFinishKeeps(c, w, t, k, a.fence, a.leaseTokens);
      case DecodeStart => OnDecodeStartKeeps(c, w, t, k, a.fence, a.leaseTokens);
      case LeaseBoundary => OnLeaseBoundaryKeeps(c, w, t, k, a.revised, a.wakeOrder);
      case Completion => OnCompletionKeeps(c, w, t, k, a.mutation, a.retry);
    }
  }

  /** A duplicate wake-up of an attempt that has started changes nothing but the clock. */
  lemma DuplicateStepKeeps(c: Config, w: map<string, Request>, s: State, e: Event, a: Answers)
    requires Safe(c, w, s) && e in s.queue && IsNext(s.queue, e)
    requires e.payload.Concerns? && e.payload.key in s.alog.stage && e.kind.DecodeStart?
    requires Started(s.alog.stage[e.payload.key])
    ensures Step(c, s, e, a) == Ok(Pop(s, e)) && Safe(c, w, Pop(s, e)) && s.now <= e.at
  {
    hide PrefillPool; hide Tabled; hide Slotted; hide Timed; hide Arriving; hide Finished; hide Timely; hide Booked;
    hide IsNext; hide LeaseAligned;
    var k := e.payload.key;
    PopDuplicate(s.queue, s.alog.stage, e);
    hide Staged;
    PopKeeps(c, w, s, e, {});
    TableKeys(c, w, s.planned, s.pending, s.issued, s.alog.stage, k);
    assert Decoding(c, s.alog.stage[k], s.pending[k], s.alog.position, s.dNodes, k);
  }

  /** Every step, whatever the policy answers, keeps the invariant and never turns time back. */
  lemma StepKeeps(c: Config, w: map<string, Request>, s: State, e: Event, a: Answers)
    requires ValidConfig(c) && ValidRequests(w) && Safe(c, w, s)
    requires e in s.queue && IsNext(s.queue, e) && ListsSleepers(s, e, a) && e.at <= c.observationEnd
    ensures s.now <= e.at
    ensures Step(c, s, e, a).Ok? ==> Safe(c, w, Step(c, s, e, a).value)
  {
    hide PrefillPool; hide DecodePool; hide Tabled; hide Slotted; hide Timed; hide Arriving; hide Finished; hide Timely; hide IsNext;
    hide Step; hide ListsSleepers; hide NoIdle;
    if e.payload.Arrives? {
      ArrivalStepKeeps(c, w, s, e, a);
    } else {
      MainEventMeans(s.queue, s.alog.stage, e);
      if e.kind.DecodeStart? && Started(s.alog.stage[e.payload.key]) {
        DuplicateStepKeeps(c, w, s, e, a);
      } else {
        PopOwn(c, w, s, e);
        OwnStepKeeps(c, w, s, e, a);
      }
    }
  }

  // --- whole runs -----------------------------------------------------------

  lemma SlotsAre(c: Config, workload: seq<Request>, x: (string, int))
    requires forall i, j :: 0 <= i < j < |workload| ==> workload[i].id != workload[j].id
    ensures x in Slots(c, workload) <==> x.0 in ById(workload) && -1 <= x.1 < OvertimeSlot(c, c.observationStart)
  {
    hide OvertimeSlot;
    if x.0 in ById(workload) && -1 <= x.1 < OvertimeSlot(c, c.observationStart) {
      var i :| 0 <= i < |workload| && workload[i].id == x.0;
      assert (workload[i].id, x.1) in Slots(c, workload);
    }
  }

  lemma ByIdIsValid(c: Config, workload: seq<Request>)
    requires ValidWorkload(c, workload)
    ensures ValidRequests(ById(workload))
  {
    hide ValidRequest;
  }

  lemma FreshQueue(now: real, n: string, v: PNode, bound: nat)
    requires v == PNode(now, false, [], 0.0, None, [], [])
    ensures InOrder(v.waiting, now, bound) && Queued(map[], map[], n, v.waiting) && Held(map[], map[], now, n, v)
  {
  }

  lemma FreshOrder(v: PNode)
    requires v.holder.None? && v.waiting == [] && v.ran == [] && v.ready == []
    ensures Ordered(map[], v)
  {
    assert SpanKeys(v.ran) == [] && EntryKeys(v.waiting) == [];
  }

  lemma FreshTimes(c: Config, w: map<string, Request>, now: real, v: PNode)
    requires v == PNode(now, false, [], 0.0, None, [], [])
    ensures Proxied(c, w, map[], v) && Ran(map[], map[], v) && ReadyInTime(map[], now, v)
  {
    assert EntryKeys(v.waiting) == [] && Unstarted(map[], v) == [];
  }

  lemma FreshNode(c: Config, w: map<string, Request>, now: real, n: string, bound: nat)
    ensures NodeSafe(c, w, map[], map[], now, n, PNode(now, false, [], 0.0, None, [], []), bound)
  {
    hide InOrder; hide Queued; hide Held; hide Ordered; hide Proxied; hide Ran; hide ReadyInTime;
    var v := PNode(now, false, [], 0.0, None, [], []);
    FreshQueue(now, n, v, bound);
    FreshOrder(v);
    FreshTimes(c, w, now, v);
  }

  lemma InitialQueue(c: Config, workload: seq<Request>)
    requires ValidConfig(c) && ValidWorkload(c, workload)
    ensures var s := Initial(c, workload); Timely(s.now, s.queue, s.serial) && Staged(s.queue, map[], {})
  {
    hide ValidRequest; hide Slots;
  }

  lemma InitialArrivals(c: Config, workload: seq<Request>)
    requires ValidWorkload(c, workload)
    ensures Arriving(ById(workload), Initial(c, workload).queue, map[])
  {
    hide ValidRequest; hide Slots;
    var w, q := ById(workload), Initial(c, workload).queue;
    forall e | e in q ensures e.payload.Arrives? && w[e.payload.request.id] == e.payload.request
                              && e.at == e.payload.request.arrivalWork {
      var i :| 0 <= i < |workload| && e == ArrivalEvent(workload, i);
    }
    forall e, f | e in q && f in q && SameArrival(e, f) ensures e == f {
      var i :| 0 <= i < |workload| && e == ArrivalEvent(workload, i);
      var j :| 0 <= j < |workload| && f == ArrivalEvent(workload, j);
      assert i == j;
    }
  }

  lemma InitialIsSafe(c: Config, workload: seq<Request>)
    requires ValidConfig(c) && ValidWorkload(c, workload)
    ensures Safe(c, ById(workload), Initial(c, workload)) && ValidRequests(ById(workload))
  {
    hide NodeSafe; hide ValidRequests; hide ValidRequest; hide Staged; hide Timely; hide Arriving; hide ById; hide Slots;
    var w, s := ById(workload), Initial(c, workload);
    ByIdIsValid(c, workload);
    InitialQueue(c, workload);
    InitialArrivals(c, workload);
    forall n | n in s.pNodes ensures NodeSafe(c, w, map[], map[], s.now, n, s.pNodes[n], s.serial) {
      FreshNode(c, w, s.now, n, s.serial);
    }
    InitialSlots(c, workload);
  }

  lemma InitialSlots(c: Config, workload: seq<Request>)
    requires ValidWorkload(c, workload)
    ensures var log := Initial(c, workload).alog;
            Slotted(c, ById(workload), log.stage, log.slot, log.owner, log.rank)
  {
    hide ValidRequest; hide Slots; hide ById; hide OvertimeSlot;
    forall x ensures x in Slots(c, workload) <==> x.0 in ById(workload) && -1 <= x.1 < OvertimeSlot(c, c.observationStart) {
      SlotsAre(c, workload, x);
    }
  }

  /** One iteration of the loop: the event popped and what the hooks answered. */
  datatype Turn = Turn(event: Event, answers: Answers)

  ghost predicate Legal(c: Config, s: State, turn: Turn) {
    && turn.event in s.queue && IsNext(s.queue, turn.event)
    && turn.event.at <= c.observationEnd && ListsSleepers(s, turn.event, turn.answers)
    && Step(c, s, turn.event, turn.answers).Ok?
  }

  /** The states of a run: turn i leads from states[i] to states[i + 1]. */
  ghost predicate IsRun(c: Config, states: seq<State>, turns: seq<Turn>) {
    && |states| == |turns| + 1
    && forall i :: 0 <= i < |turns| ==>
         Legal(c, states[i], turns[i]) && Step(c, states[i], turns[i].event, turns[i].answers) == Ok(states[i + 1])
  }

  /** Every state of every run is safe, and processed event times never decrease. */
  lemma {:induction false} EveryRunIsSafe(c: Config, workload: seq<Request>, states: seq<State>, turns: seq<Turn>, n: nat)
    requires ValidConfig(c) && ValidWorkload(c, workload) && IsRun(c, states, turns) && n <= |turns|
    requires states[0] == Initial(c, workload)
    ensures Safe(c, ById(workload), states[n])
    ensures n < |turns| ==> states[n].now <= turns[n].event.at == states[n + 1].now
  {
    hide Safe; hide Step; hide ValidRequest; hide ById; hide ListsSleepers; hide ValidConfig;
    InitialIsSafe(c, workload);
    if n > 0 {
      EveryRunIsSafe(c, workload, states, turns, n - 1);
      assert Legal(c, states[n - 1], turns[n - 1]);
      StepKeeps(c, ById(workload), states[n - 1], turns[n - 1].event, turns[n - 1].answers);
    }
    if n < |turns| {
      assert Legal(c, states[n], turns[n]);
      StepKeeps(c, ById(workload), states[n], turns[n].event, turns[n].answers);
      StepSetsClock(c, states[n], turns[n].event, turns[n].answers);
    }
  }

  lemma {:induction false} WakeKeepsClock(s: State, order: seq<Key>)
    ensures Wake(s, order).now == s.now
  {
    WakeFields(s, order);
  }

  lemma BoundaryKeepsClock(c: Config, s: State, k: Key, revised: Spec, order: seq<Key>)
    requires OnLeaseBoundary(c, s, k, revised, order).Ok?
    ensures OnLeaseBoundary(c, s, k, revised, order).value.now == s.now
  {
    hide Wake; hide Moved; hide ElapsedTokens; hide CutShort;
    if revised.terminal.Aborted? {
      var emitted := ElapsedTokens(s.now - s.pending[k].decodeStart.value, c.cost.decodePerToken);
      WakeKeepsClock(EndLease(s, k, revised, emitted.value), order);
    }
  }

  lemma PrefillFinishKeepsClock(c: Config, s: State, k: Key, fence: real, lease: Option<int>)
    requires OnPrefillFinish(c, s, k, fence, lease).Ok?
    ensures OnPrefillFinish(c, s, k, fence, lease).value.now == s.now
  {
    hide LeastIndex; hide Moved; hide DecodeWork;
  }

  lemma CompletionKeepsClock(c: Config, s: State, k: Key, m: Mutation, retry: Option<Spec>)
    requires OnCompletion(c, s, k, m, retry).Ok?
    ensures OnCompletion(c, s, k, m, retry).value.now == s.now
  {
    hide CacheAfter; hide ValidatePlan; hide Moved;
  }

  lemma StepSetsClock(c: Config, s: State, e: Event, a: Answers)
    requires Step(c, s, e, a).Ok?
    ensures Step(c, s, e, a).value.now == e.at
  {
    hide OnPrefillFinish; hide OnLeaseBoundary; hide OnCompletion; hide Priced; hide ValidatePlan; hide LeastIndex;
    hide Moved;
    if e.payload.Concerns? {
      var k, t := e.payload.key, Pop(s, e);
      match e.kind
      case PrefillFinish => PrefillFinishKeepsClock(c, t, k, a.fence, a.leaseTokens);
      case LeaseBoundary => BoundaryKeepsClock(c, t, k, a.revised, a.wakeOrder);
      case Completion => CompletionKeepsClock(c, t, k, a.mutation, a.retry);
      case _ =>
    }
  }

  predicate PolicyFault(err: Error) {
    !err.MissingKey? && !err.NotTokenAligned? && !err.NoPartialProgress?
  }

  lemma PendingNodes(c: Config, w: map<string, Request>, s: State, k: Key)
    requires SafeBut(c, w, s, {k}, s.serial) && k in s.pending && !Ended(s.alog.stage[k])
    ensures s.pending[k].spec.pNode in s.pNodes && s.pending[k].spec.pNode in s.cache
    ensures s.pending[k].spec.dNode in s.dNodes
  {
    hide NodeSafe; hide Staged; hide Slotted; hide Timed; hide Arriving; hide Finished; hide Timely; hide Booked; hide Decoding;
    hide PlacedAt;
  }

  /** The completing attempt was cut off by an abort that named a P node of its own invention. */
  predicate Stray(c: Config, s: State, e: Event) {
    && e.kind.Completion? && e.payload.Concerns? && e.payload.key in s.pending
    && s.pending[e.payload.key].spec.pNode !in c.prefillNodes && s.pending[e.payload.key].spec.prefillReusable
  }

  lemma CacheFault(c: Config, cache: map<string, set<string>>, item: Pending, m: Mutation)
    requires CacheAfter(c, cache, item, m).Raised?
    ensures var err := CacheAfter(c, cache, item, m).error;
            if item.spec.pNode !in cache then err.MissingKey? else PolicyFault(err)
  {
  }

  lemma CompletionFaults(c: Config, w: map<string, Request>, s: State, e: Event, k: Key, m: Mutation, retry: Option<Spec>)
    requires SafeBut(c, w, s, {k}, s.serial) && k in s.pending && k in s.alog.stage
    requires e.kind.Completion? && e.payload == Concerns(k) && OnCompletion(c, s, k, m, retry).Raised?
    ensures var err := OnCompletion(c, s, k, m, retry).error;
            if Stray(c, s, e) then err.MissingKey? else PolicyFault(err)
  {
    hide SafeBut; hide CacheAfter; hide ValidatePlan; hide Settle; hide Issue; hide Mutated; hide ItemFits;
    CompletingItem(c, w, s, k);
    StrayMeans(c, s.cache, s.pending[k], m);
    assert ItemFits(c, w, k, s.pending[k]);
    UnknownMeansCut(c, w, k, s.pending[k]);
    if CacheAfter(c, s.cache, s.pending[k], m).Raised? {
      CacheFault(c, s.cache, s.pending[k], m);
    }
    if retry.Some? { PlanFault(c, s.pending[k].request, retry.value, s.issued); }
  }

  lemma UnknownMeansCut(c: Config, w: map<string, Request>, k: Key, item: Pending)
    requires ItemFits(c, w, k, item)
    ensures item.spec.pNode !in c.prefillNodes ==> item.spec.terminal.Aborted?
  {
  }

  lemma StrayMeans(c: Config, cache: map<string, set<string>>, item: Pending, m: Mutation)
    requires Cached(c, cache)
    ensures item.spec.pNode !in c.prefillNodes ==>
              (CacheAfter(c, cache, item, m).Raised? <==> item.spec.terminal.Completed? || item.spec.prefillReusable)
    ensures item.spec.pNode in cache <==> item.spec.pNode in c.prefillNodes
  {
  }

  lemma PlanFault(c: Config, r: Request, spec: Spec, issued: set<Key>)
    ensures ValidatePlan(c, r, spec, issued).Some? ==> PolicyFault(ValidatePlan(c, r, spec, issued).value)
  {
  }

  lemma OwnFaults(c: Config, w: map<string, Request>, s: State, e: Event, a: Answers)
    requires ValidConfig(c) && ValidRequests(w) && Safe(c, w, s) && e in s.queue && IsNext(s.queue, e)
    requires e.payload.Concerns? && e.payload.key in s.alog.stage && EventFits(e, s.alog.stage[e.payload.key])
    requires !e.kind.Arrival?
    requires e.kind.DecodeStart? ==> s.alog.stage[e.payload.key].Gated?
    ensures Step(c, s, e, a).Raised? ==>
              if Stray(c, s, e) then Step(c, s, e, a).error.MissingKey? else PolicyFault(Step(c, s, e, a).error)
  {
    hide Safe; hide SafeBut; hide IsNext; hide Late; hide Enumerates; hide OnCompletion; hide EndLease;
    hide OnReady; hide OnPrefillStart; hide OnLeaseBoundary; hide CacheAfter; hide ValidatePlan; hide HandOver;
    hide Settle; hide Issue; hide Gate; hide ValidRequests;
    PopOwn(c, w, s, e);
    var k, t := e.payload.key, Pop(s, e);
    if k in s.pending && !Ended(s.alog.stage[k]) { PendingNodes(c, w, t, k); }
    match e.kind
    case AttemptReady => OnReadyKeeps(c, w, t, k);
    case PrefillStart => StartPrefillKeeps(c, w, t, k);
    case PrefillFinish => HandOverKeeps(c, w, t, k);
    case DecodeStart =>
    case LeaseBoundary => LeaseFaults(c, w, t, k, a.revised, a.wakeOrder);
    case Completion =>
      if OnCompletion(c, t, k, a.mutation, a.retry).Raised? {
        CompletionFaults(c, w, t, e, k, a.mutation, a.retry);
      }
  }

  /** Only a policy answer or a free decode cost can make a step raise: an abort is always token
      aligned and partial, and the kernel never misses an entry of its own tables but for a P node
      that an abort has made up. */
  lemma StepRaisesForPolicyOnly(c: Config, w: map<string, Request>, s: State, e: Event, a: Answers)
    requires ValidConfig(c) && ValidRequests(w) && Safe(c, w, s)
    requires e in s.queue && IsNext(s.queue, e) && Step(c, s, e, a).Raised?
    ensures if Stray(c, s, e) then Step(c, s, e, a).error.MissingKey? else PolicyFault(Step(c, s, e, a).error)
  {
    hide PrefillPool; hide DecodePool; hide Tabled; hide Slotted; hide Timed; hide Arriving; hide Finished; hide Timely; hide IsNext;
    hide NoIdle; hide Handle; hide PolicyFault;
    if e.payload.Arrives? {
      ArrivalFaults(c, Pop(s, e), e, a);
    } else {
      MainEventMeans(s.queue, s.alog.stage, e);
      if e.kind.DecodeStart? && Started(s.alog.stage[e.payload.key]) {
        DuplicateStepKeeps(c, w, s, e, a);
      } else {
        PopOwn(c, w, s, e);
        OwnFaults(c, w, s, e, a);
      }
    }
  }

  lemma ArrivalFaults(c: Config, s: State, e: Event, a: Answers)
    requires e.payload.Arrives? && Handle(c, s, e, a).Raised?
    ensures PolicyFault(Handle(c, s, e, a).error)
  {
    hide Issue;
  }
}
