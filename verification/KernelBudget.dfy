/** Which attempt index an abort may name (src/prefill_cache_sim/m12_kernel.py:764, 856-862).  The
    kernel reads the retries spent from the revised record; that a request gets no more than
    `retry_budget + 1` attempts depends on exactly one condition, which the reprice hook can read
    from the attempt it is asked about. */
module KernelBudget {
  import opened Options
  import opened KernelModel
  import opened KernelSteps
  import opened KernelSafety
  import opened KernelInvariant
  import opened KernelHandlers
  import opened KernelRuns
  import opened KernelResults
  import opened KernelAborts

  /** An abort does not name an index within the budget for an attempt issued beyond it. */
  predicate KeepsIndex(c: Config, s: State, e: Event, a: Answers) {
    Aborts(s, e, a) ==> e.payload.key.1 < c.retryBudget || a.revised.index >= c.retryBudget
  }

  /** No retry has been taken in overtime, and no record allows one. */
  ghost predicate WithinBudget(c: Config, s: State) {
    && (forall k :: k in s.alog.slot ==> s.alog.slot[k] < c.retryBudget)
    && (forall k :: k in s.pending && k.1 >= c.retryBudget ==> s.pending[k].spec.index >= c.retryBudget)
  }

  /** Records and slots are as before. */
  ghost predicate SameSpecs(s: State, t: State) {
    && t.alog.slot == s.alog.slot
    && forall k :: k in t.pending ==> k in s.pending && t.pending[k].spec == s.pending[k].spec
  }

  lemma SameBudget(c: Config, s: State, t: State)
    requires WithinBudget(c, s) && SameSpecs(s, t)
    ensures WithinBudget(c, t)
  {
  }

  lemma DispatchedSlots(s: State, n: string, at: real)
    requires n in s.pNodes && s.pNodes[n].waiting != []
    ensures Dispatch(s, n, at).alog.slot == s.alog.slot && Dispatch(s, n, at).pending == s.pending
  {
    hide LeastIndex;
  }

  lemma HandOverSlots(s: State, k: Key, n: string)
    requires n in s.pNodes
    ensures HandOver(s, k, n).alog.slot == s.alog.slot && HandOver(s, k, n).pending == s.pending
  {
    hide LeastIndex; hide Dispatch;
    var w := s.pNodes[n].waiting;
    if w != [] { DispatchedSlots(Release(s, k, n), n, Max(s.now, w[LeastIndex(w)].at)); }
  }

  lemma BeginSpecs(c: Config, s: State, k: Key, lease: Option<int>)
    requires k in s.pending && s.pending[k].spec.dNode in s.dNodes && BeginDecode(c, s, k, lease).Ok?
    ensures SameSpecs(s, BeginDecode(c, s, k, lease).value)
  {
    hide DecodeWork;
  }

  lemma GateSpecs(s: State, k: Key, at: real)
    ensures SameSpecs(s, Gate(s, k, at))
  {
  }

  lemma SpecsChain(s: State, m: State, t: State)
    requires m.alog.slot == s.alog.slot && m.pending == s.pending && SameSpecs(m, t)
    ensures SameSpecs(s, t)
  {
  }

  lemma PrefillFinishSpecs(c: Config, s: State, k: Key, fence: real, lease: Option<int>)
    requires OnPrefillFinish(c, s, k, fence, lease).Ok?
    ensures SameSpecs(s, OnPrefillFinish(c, s, k, fence, lease).value)
  {
    hide HandOver; hide BeginDecode; hide SameSpecs; hide Gate;
    var t := HandOver(s, k, s.pending[k].spec.pNode);
    HandedOver(s, k, s.pending[k].spec.pNode);
    HandOverSlots(s, k, s.pending[k].spec.pNode);
    var start := Max(s.now, Max(s.dNodes[s.pending[k].spec.dNode].available, fence));
    if start > s.now {
      GateSpecs(t, k, start);
      SpecsChain(s, t, Gate(t, k, start));
    } else {
      BeginSpecs(c, t, k, lease);
      SpecsChain(s, t, BeginDecode(c, t, k, lease).value);
    }
  }

  lemma DecodeStartSpecs(c: Config, s: State, k: Key, fence: real, lease: Option<int>)
    requires OnDecodeStart(c, s, k, fence, lease).Ok?
    ensures SameSpecs(s, OnDecodeStart(c, s, k, fence, lease).value)
  {
    hide BeginDecode; hide Gate;
    if s.pending[k].decodeStart.None? {
      var start := Max(s.now, Max(s.dNodes[s.pending[k].spec.dNode].available, fence));
      if start > s.now { GateSpecs(s, k, start); } else { BeginSpecs(c, s, k, lease); }
    }
  }

  lemma StartSpecs(c: Config, s: State, k: Key)
    requires OnPrefillStart(c, s, k).Ok?
    ensures SameSpecs(s, OnPrefillStart(c, s, k).value)
  {
    hide QueueWork;
    PricedFields(c, s.pending[k].(prefillStart := Some(s.now)), s.cache);
  }

  lemma BoundarySpecs(c: Config, s: State, k: Key, revised: Spec, order: seq<Key>)
    requires OnLeaseBoundary(c, s, k, revised, order).Ok? && !revised.terminal.Aborted?
    ensures SameSpecs(s, OnLeaseBoundary(c, s, k, revised, order).value)
  {
  }

  /** A ready attempt's record is the one it was issued with. */
  lemma ReadyBudget(c: Config, w: map<string, Request>, s: State, k: Key)
    requires SafeBut(c, w, s, {k}, s.serial) && WithinBudget(c, s) && OnReady(c, s, k).Ok?
    ensures WithinBudget(c, OnReady(c, s, k).value)
  {
    hide PrefillPool; hide DecodePool; hide Staged; hide Slotted; hide Timed; hide Arriving; hide Finished; hide Timely;
    hide LeastIndex; hide MaximumPrefillWork; hide Dispatch;
    var t := Enqueue(c, s, k);
    assert ItemFits(c, w, k, s.planned[k]);
    assert WithinBudget(c, t);
    if !s.pNodes[s.planned[k].spec.pNode].busy {
      DispatchedSlots(t, s.planned[k].spec.pNode, s.now);
      SameBudget(c, t, Dispatch(t, s.planned[k].spec.pNode, s.now));
    }
  }

  lemma CompletionBudget(c: Config, w: map<string, Request>, s: State, k: Key, m: Mutation, retry: Option<Spec>)
    requires SafeBut(c, w, s, {k}, s.serial) && WithinBudget(c, s) && OnCompletion(c, s, k, m, retry).Ok?
    ensures WithinBudget(c, OnCompletion(c, s, k, m, retry).value)
  {
    hide SafeBut; hide CacheAfter; hide ValidatePlan; hide OvertimeSlot;
  }

  lemma ArrivalBudget(c: Config, s: State, r: Request, plans: seq<Spec>)
    requires WithinBudget(c, s) && OnArrival(c, s, r, plans).Ok?
    ensures WithinBudget(c, OnArrival(c, s, r, plans).value)
  {
    hide ValidatePlan;
  }

  /** After an accepted abort the budget still holds if and only if the abort keeps the index. */
  lemma AbortBudgetIff(c: Config, s: State, e: Event, a: Answers)
    requires WithinBudget(c, s) && Aborts(s, e, a) && Step(c, s, e, a).Ok?
    ensures WithinBudget(c, Step(c, s, e, a).value) <==> KeepsIndex(c, s, e, a)
  {
    hide Step; hide CutShort;
    AbortFields(c, s, e, a);
    var k, t := e.payload.key, Step(c, s, e, a).value;
    assert k in t.pending && t.pending[k].spec.index == a.revised.index;
  }

  /** Every step keeps within the budget, except exactly an abort that hands a spent index back. */
  lemma StepBudgetIff(c: Config, w: map<string, Request>, s: State, e: Event, a: Answers)
    requires ValidConfig(c) && ValidRequests(w) && Safe(c, w, s) && WithinBudget(c, s)
    requires e in s.queue && IsNext(s.queue, e) && Step(c, s, e, a).Ok?
    ensures WithinBudget(c, Step(c, s, e, a).value) <==> KeepsIndex(c, s, e, a)
  {
    hide PrefillPool; hide DecodePool; hide Tabled; hide Slotted; hide Timed; hide Arriving; hide Finished; hide Timely;
    hide IsNext; hide Step; hide NoIdle; hide WithinBudget;
    if Aborts(s, e, a) {
      AbortBudgetIff(c, s, e, a);
    } else if e.payload.Arrives? {
      PopBudget(c, s, e);
      ArrivalStepBudget(c, s, e, a);
    } else {
      MainEventMeans(s.queue, s.alog.stage, e);
      PopBudget(c, s, e);
      OwnStepBudget(c, w, s, e, a);
    }
  }

  lemma PopBudget(c: Config, s: State, e: Event)
    requires WithinBudget(c, s)
    ensures WithinBudget(c, Pop(s, e))
  {
  }

  lemma ArrivalStepBudget(c: Config, s: State, e: Event, a: Answers)
    requires WithinBudget(c, Pop(s, e)) && e.payload.Arrives? && Step(c, s, e, a).Ok?
    ensures WithinBudget(c, Step(c, s, e, a).value)
  {
    hide WithinBudget; hide OnArrival;
    ArrivalBudget(c, Pop(s, e), e.payload.request, a.plans);
  }

  lemma OwnStepBudget(c: Config, w: map<string, Request>, s: State, e: Event, a: Answers)
    requires ValidConfig(c) && ValidRequests(w) && Safe(c, w, s) && WithinBudget(c, Pop(s, e))
    requires e in s.queue && IsNext(s.queue, e) && e.payload.Concerns? && !e.kind.Arrival? && !Aborts(s, e, a)
    requires e.payload.key in s.alog.stage && EventFits(e, s.alog.stage[e.payload.key])
    requires Step(c, s, e, a).Ok?
    ensures WithinBudget(c, Step(c, s, e, a).value)
  {
    hide Safe; hide SafeBut; hide IsNext; hide Late; hide WithinBudget; hide SameSpecs; hide Started;
    hide OnReady; hide OnPrefillStart; hide OnPrefillFinish; hide OnDecodeStart; hide OnLeaseBoundary; hide OnCompletion;
    var k, t := e.payload.key, Pop(s, e);
    var u := Step(c, s, e, a).value;
    match e.kind
    case AttemptReady =>
      PopOwn(c, w, s, e);
      ReadyBudget(c, w, t, k);
    case PrefillStart => StartSpecs(c, t, k); SameBudget(c, t, u);
    case PrefillFinish => PrefillFinishSpecs(c, t, k, a.fence, a.leaseTokens); SameBudget(c, t, u);
    case DecodeStart => DecodeStartSpecs(c, t, k, a.fence, a.leaseTokens); SameBudget(c, t, u);
    case LeaseBoundary =>
      BoundaryPending(c, t, k, a.revised, a.wakeOrder);
      BoundarySpecs(c, t, k, a.revised, a.wakeOrder);
      SameBudget(c, t, u);
    case Completion =>
      PopOwn(c, w, s, e);
      CompletionBudget(c, w, t, k, a.mutation, a.retry);
  }

  lemma BoundaryPending(c: Config, s: State, k: Key, revised: Spec, order: seq<Key>)
    requires OnLeaseBoundary(c, s, k, revised, order).Ok?
    ensures k in s.pending
  {
  }

  // --- whole runs -----------------------------------------------------------

  ghost predicate BudgetThroughout(c: Config, states: seq<State>) {
    forall n :: 0 <= n < |states| ==> WithinBudget(c, states[n])
  }

  ghost predicate AllKeepIndex(c: Config, states: seq<State>, turns: seq<Turn>)
    requires |turns| <= |states|
  {
    forall i :: 0 <= i < |turns| ==> KeepsIndex(c, states[i], turns[i].event, turns[i].answers)
  }

  lemma InitialBudget(c: Config, workload: seq<Request>)
    ensures WithinBudget(c, Initial(c, workload))
  {
    hide Slots;
  }

  lemma TurnBudgetIff(c: Config, workload: seq<Request>, states: seq<State>, turns: seq<Turn>, i: nat)
    requires ValidConfig(c) && ValidWorkload(c, workload) && IsRun(c, states, turns) && i < |turns|
    requires states[0] == Initial(c, workload) && WithinBudget(c, states[i])
    ensures WithinBudget(c, states[i + 1]) <==> KeepsIndex(c, states[i], turns[i].event, turns[i].answers)
  {
    hide Safe; hide Step; hide ById; hide ListsSleepers; hide ValidConfig; hide ValidRequest; hide WithinBudget;
    hide KeepsIndex; hide ValidRequests;
    EveryRunIsSafe(c, workload, states, turns, i);
    InitialIsSafe(c, workload);
    assert Legal(c, states[i], turns[i]);
    StepBudgetIff(c, ById(workload), states[i], turns[i].event, turns[i].answers);
  }

  lemma {:induction false} BudgetUpTo(c: Config, workload: seq<Request>, states: seq<State>, turns: seq<Turn>, n: nat)
    requires ValidConfig(c) && ValidWorkload(c, workload) && IsRun(c, states, turns) && n <= |turns|
    requires states[0] == Initial(c, workload)
    requires forall i :: 0 <= i < n ==> KeepsIndex(c, states[i], turns[i].event, turns[i].answers)
    ensures WithinBudget(c, states[n])
  {
    hide IsRun; hide ValidConfig; hide ValidWorkload; hide WithinBudget; hide KeepsIndex; hide Initial;
    if n == 0 {
      InitialBudget(c, workload);
    } else {
      BudgetUpTo(c, workload, states, turns, n - 1);
      TurnBudgetIff(c, workload, states, turns, n - 1);
    }
  }

  /** Over every run: the budget holds throughout if and only if no abort names an index within the
      budget for an attempt issued beyond it. */
  lemma BudgetThroughoutIff(c: Config, workload: seq<Request>, states: seq<State>, turns: seq<Turn>)
    requires ValidConfig(c) && ValidWorkload(c, workload) && IsRun(c, states, turns)
    requires states[0] == Initial(c, workload)
    ensures BudgetThroughout(c, states) <==> AllKeepIndex(c, states, turns)
  {
    hide Legal; hide Step; hide ValidConfig; hide ValidWorkload; hide WithinBudget; hide KeepsIndex; hide Initial;
    if AllKeepIndex(c, states, turns) {
      forall n | 0 <= n < |states| ensures WithinBudget(c, states[n]) { BudgetUpTo(c, workload, states, turns, n); }
    }
    if BudgetThroughout(c, states) {
      forall i | 0 <= i < |turns| ensures KeepsIndex(c, states[i], turns[i].event, turns[i].answers) {
        assert WithinBudget(c, states[i]) && WithinBudget(c, states[i + 1]);
        TurnBudgetIff(c, workload, states, turns, i);
      }
    }
  }

  /** In a state within the budget a request has at most `retry_budget + 1` attempts. */
  lemma AttemptsAreBounded(c: Config, w: map<string, Request>, s: State, id: string)
    requires Safe(c, w, s) && WithinBudget(c, s)
    ensures |AttemptsOf(s.issued, id)| <= c.retryBudget + 1
  {
    hide Safe; hide OvertimeSlot;
    OvertimeRunsOut(c, c.observationStart, c.observationStart);
    AttemptsWithin(c, w, s, id, c.retryBudget);
  }

  /** So in every state of a run whose aborts keep the index. */
  lemma RunAttemptsAreBounded(c: Config, workload: seq<Request>, states: seq<State>, turns: seq<Turn>, n: nat, id: string)
    requires ValidConfig(c) && ValidWorkload(c, workload) && IsRun(c, states, turns) && n <= |turns|
    requires states[0] == Initial(c, workload) && AllKeepIndex(c, states, turns)
    ensures |AttemptsOf(states[n].issued, id)| <= c.retryBudget + 1
  {
    hide Legal; hide Step; hide Safe; hide ValidConfig; hide ValidRequest; hide WithinBudget; hide KeepsIndex; hide Initial;
    BudgetUpTo(c, workload, states, turns, n);
    EveryRunIsSafe(c, workload, states, turns, n);
    AttemptsAreBounded(c, ById(workload), states[n], id);
  }

  /** An attempt issued beyond the budget is retried, by a plan that is otherwise in order, if and
      only if an abort has replaced its index by one within the budget. */
  lemma OverspentRetryIff(c: Config, w: map<string, Request>, s: State, e: Event, a: Answers)
    requires Safe(c, w, s) && e.kind.Completion? && e.payload.Concerns? && e.payload.key in s.pending
    requires e.payload.key.1 >= c.retryBudget && !s.pending[e.payload.key].spec.terminal.Completed? && a.retry.Some?
    requires CacheAfter(c, s.cache, s.pending[e.payload.key], a.mutation).Ok?
    requires ValidatePlan(c, s.pending[e.payload.key].request, a.retry.value, s.issued).None?
    ensures var item := s.pending[e.payload.key];
            && (Step(c, s, e, a).Ok? <==> item.spec.index < c.retryBudget)
            && (Step(c, s, e, a).Ok? ==> CutOff(c, item) && item.plan.index >= c.retryBudget)
  {
    hide PrefillPool; hide DecodePool; hide Staged; hide Slotted; hide Timed; hide Arriving; hide Finished; hide Timely;
    hide CacheAfter; hide ValidatePlan; hide NoIdle; hide Issue; hide Settle;
    assert ItemFits(c, w, e.payload.key, s.pending[e.payload.key]);
  }
}
