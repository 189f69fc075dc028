/** `CausalKernel.run` (src/prefill_cache_sim/m12_kernel.py:467-908) as the loop it is: an
    event heap popped in order, tables updated in place by one handler per event, and hooks asked
    through lazily refreshed cache snapshots. */
module KernelRun {
  import opened Lists
  import opened Options
  import opened KernelModel
  import opened KernelSteps
  import opened KernelSafety
  import opened KernelInvariant
  import opened KernelHandlers
  import opened KernelRuns
  import opened KernelTermination
  import opened CacheSnapshots

  /** What a hook sees: the attempt it is asked about and the kernel's tables at that moment. */
  datatype View = View(
    spec: Spec,
    cache: map<string, set<string>>,
    prefillAvailable: map<string, real>,
    decodeAvailable: map<string, real>,
    queuedWork: map<string, real>)

  function ViewOf(s: State, e: Event): View {
    View(if e.payload.Concerns? && e.payload.key in s.pending then s.pending[e.payload.key].spec else NO_ATTEMPT,
         s.cache,
         map n | n in s.pNodes :: s.pNodes[n].available,
         map n | n in s.dNodes :: s.dNodes[n].available,
         map n | n in s.pNodes :: s.pNodes[n].queuedWork)
  }

  /** The hooks: what they answer at turn `i` for event `e`, given the view; the retry hook is asked
      with a view of its own. */
  datatype Policy = Policy(answers: (nat, Event, View) -> Answers, retry: (nat, Event, View) -> Option<Spec>)

  /** The retry hook sees the caches after the completion. */
  function RetryAsked(c: Config, policy: Policy, i: nat, s: State, e: Event, m: Mutation): Option<Spec> {
    if e.payload.Concerns? && e.payload.key in s.pending && CacheAfter(c, s.cache, s.pending[e.payload.key], m).Ok?
    then policy.retry(i, e, ViewOf(s.(cache := CacheAfter(c, s.cache, s.pending[e.payload.key], m).value), e))
    else None
  }

  /** What the policy answers to exact views of the state. */
  function Asked(c: Config, policy: Policy, i: nat, s: State, e: Event): Answers {
    var a := policy.answers(i, e, ViewOf(s, e));
    a.(retry := RetryAsked(c, policy, i, s, e, a.mutation))
  }

  /** At a completion the mutation hook is shown the caches as they were and the retry hook the caches as
      they have become; all else they are shown is the same. */
  lemma HooksSeeBeforeAndAfter(c: Config, policy: Policy, i: nat, s: State, e: Event)
    requires e.payload.Concerns? && e.payload.key in s.pending
    ensures var a := Asked(c, policy, i, s, e);
            var t := OnCompletion(c, s, e.payload.key, a.mutation, a.retry);
            t.Ok? ==>
              exists before: View, after: View ::
                && before.cache == s.cache && after.cache == t.value.cache && after == before.(cache := after.cache)
                && before.spec == s.pending[e.payload.key].spec
                && a.mutation == policy.answers(i, e, before).mutation && a.retry == policy.retry(i, e, after)
  {
    hide CacheAfter; hide Issue; hide ValidatePlan; hide Settle;
    var a := Asked(c, policy, i, s, e);
    var t := OnCompletion(c, s, e.payload.key, a.mutation, a.retry);
    if t.Ok? {
      CompletedCaches(c, s, e.payload.key, a.mutation, a.retry);
      var before, after := ViewOf(s, e), ViewOf(s.(cache := t.value.cache), e);
      assert after == before.(cache := after.cache);
      assert a.mutation == policy.answers(i, e, before).mutation && a.retry == policy.retry(i, e, after);
    }
  }

  lemma CompletedCaches(c: Config, s: State, k: Key, m: Mutation, retry: Option<Spec>)
    requires k in s.pending && OnCompletion(c, s, k, m, retry).Ok?
    ensures CacheAfter(c, s.cache, s.pending[k], m) == KernelModel.Ok(OnCompletion(c, s, k, m, retry).value.cache)
  {
    hide CacheAfter; hide Rank; hide ValidatePlan; hide RetrySlot;
  }

  /** The turn is the policy's own, up to the order in which sleepers are woken. */
  ghost predicate Answered(c: Config, policy: Policy, i: nat, s: State, turn: Turn) {
    turn.answers == Asked(c, policy, i, s, turn.event).(wakeOrder := turn.answers.wakeOrder)
  }

  /** A run from the start in which every turn is the policy's answer to an exact view. */
  ghost predicate IsRunOf(c: Config, policy: Policy, workload: seq<Request>, states: seq<State>, turns: seq<Turn>) {
    && IsRun(c, states, turns) && states[0] == Initial(c, workload)
    && forall i :: 0 <= i < |turns| ==> Answered(c, policy, i, states[i], turns[i])
  }

  lemma NextIsUnique(queue: set<Event>, e: Event, f: Event)
    requires IsNext(queue, e) && IsNext(queue, f) && (e.serial == f.serial ==> e == f)
    ensures e == f
  {
  }

  /** The kernel is deterministic: two runs of one policy that wake their sleepers in the same orders are
      the same run, event by event and state by state. */
  lemma {:induction false} PolicyDeterminesRun(c: Config, policy: Policy, workload: seq<Request>, states: seq<State>,
                                               turns: seq<Turn>, states': seq<State>, turns': seq<Turn>, n: nat)
    requires ValidConfig(c) && ValidWorkload(c, workload) && n <= |turns| && n <= |turns'|
    requires IsRunOf(c, policy, workload, states, turns) && IsRunOf(c, policy, workload, states', turns')
    requires forall i :: 0 <= i < n ==> turns[i].answers.wakeOrder == turns'[i].answers.wakeOrder
    ensures states[n] == states'[n] && turns[..n] == turns'[..n]
  {
    hide ValidConfig; hide ValidRequest; hide Step; hide Initial; hide Asked; hide IsNext; hide ListsSleepers; hide Safe;
    if n > 0 {
      var m := n - 1;
      PolicyDeterminesRun(c, policy, workload, states, turns, states', turns', m);
      EveryRunIsSafe(c, workload, states, turns, m);
      assert Legal(c, states[m], turns[m]) && Legal(c, states'[m], turns'[m]);
      assert Answered(c, policy, m, states[m], turns[m]) && Answered(c, policy, m, states'[m], turns'[m]);
      var e, f := turns[m].event, turns'[m].event;
      SerialsDiffer(c, ById(workload), states[m], e, f);
      NextIsUnique(states[m].queue, e, f);
      assert turns[m] == turns'[m];
      assert turns[..n] == turns[..m] + [turns[m]] && turns'[..n] == turns'[..m] + [turns'[m]];
    }
  }

  lemma SerialsDiffer(c: Config, w: map<string, Request>, s: State, e: Event, f: Event)
    requires Safe(c, w, s) && e in s.queue && f in s.queue
    ensures e.serial == f.serial ==> e == f
  {
    hide PrefillPool; hide DecodePool; hide Tabled; hide Slotted; hide Timed; hide Arriving; hide Finished; hide Staged; hide NoIdle;
  }

  ghost predicate PaidThroughout(states: seq<State>, turns: seq<Turn>, pay: Potential)
    requires |turns| <= |states|
  {
    forall i :: 0 <= i < |turns| ==> Pays(states[i], turns[i].event, turns[i].answers, pay)
  }

  /** On its own runs the policy pays for every delay. */
  ghost predicate PaysOnRuns(c: Config, policy: Policy, workload: seq<Request>, pay: Potential) {
    forall states: seq<State>, turns: seq<Turn> ::
      IsRunOf(c, policy, workload, states, turns) ==> |turns| <= |states| && PaidThroughout(states, turns, pay)
  }

  /** On its own runs the policy never delays by less than `delta`. */
  ghost predicate SpacesDelays(c: Config, policy: Policy, workload: seq<Request>, delta: real) {
    forall states: seq<State>, turns: seq<Turn>, i: int ::
      IsRunOf(c, policy, workload, states, turns) && 0 <= i < |turns| && i < |states| ==>
        Spaced(states[i], turns[i].event, turns[i].answers, delta)
  }

  lemma SpacedPolicyPays(c: Config, policy: Policy, workload: seq<Request>, delta: real)
    requires delta > 0.0 && SpacesDelays(c, policy, workload, delta)
    ensures PaysOnRuns(c, policy, workload, ByDelay(c, delta))
  {
    hide Spaced; hide Pays; hide Answered; hide Initial; hide ByDelay;
    forall states: seq<State>, turns: seq<Turn> | IsRunOf(c, policy, workload, states, turns)
      ensures |turns| <= |states| && PaidThroughout(states, turns, ByDelay(c, delta))
    {
      forall i | 0 <= i < |turns| ensures Pays(states[i], turns[i].event, turns[i].answers, ByDelay(c, delta)) {
        LegalInTime(c, states[i], turns[i]);
        SpacedPays(c, states[i], turns[i].event, turns[i].answers, delta);
      }
    }
  }

  lemma LegalInTime(c: Config, s: State, turn: Turn)
    requires Legal(c, s, turn)
    ensures turn.event.at <= c.observationEnd
  {
  }

  /** On its own runs the policy's fences do not change their mind. */
  ghost predicate StaysStable(c: Config, policy: Policy, workload: seq<Request>, gate: (map<Slot, nat>, Key) -> real) {
    forall states: seq<State>, turns: seq<Turn>, i: int ::
      IsRunOf(c, policy, workload, states, turns) && 0 <= i < |turns| && i < |states| ==>
        Stable(states[i], turns[i].event, turns[i].answers, gate)
  }

  lemma StablePolicyPays(c: Config, policy: Policy, workload: seq<Request>, gate: (map<Slot, nat>, Key) -> real)
    requires StaysStable(c, policy, workload, gate)
    ensures PaysOnRuns(c, policy, workload, ByGate(gate))
  {
    hide Stable; hide Pays; hide Answered; hide Initial; hide ByGate; hide Legal;
    forall states: seq<State>, turns: seq<Turn> | IsRunOf(c, policy, workload, states, turns)
      ensures |turns| <= |states| && PaidThroughout(states, turns, ByGate(gate))
    {
      forall i | 0 <= i < |turns| ensures Pays(states[i], turns[i].event, turns[i].answers, ByGate(gate)) {
        StablePays(states[i], turns[i].event, turns[i].answers, gate);
      }
    }
  }

  /** Some abort has named a P node of its own invention. */
  ghost predicate HasStray(c: Config, s: State) {
    exists k :: k in s.pending && s.pending[k].spec.pNode !in c.prefillNodes
  }

  /** Why a run can be refused: a policy answer, now or in an earlier abort. */
  ghost predicate Blamed(c: Config, s: State, err: Error) {
    PolicyFault(err) || (err.MissingKey? && HasStray(c, s))
  }

  /** The check of a workload before a run: one pass, remembering the identities seen. */
  method ValidateWorkload(c: Config, workload: seq<Request>) returns (accepted: bool)
    ensures accepted <==> AcceptedWorkload(c, workload)
  {
    var identities, previous := {}, c.observationStart;
    for i := 0 to |workload|
      invariant AcceptedWorkload(c, workload[..i])
      invariant forall id :: id in identities <==> exists j :: 0 <= j < i && workload[j].id == id
      invariant forall j :: 0 <= j < i ==> workload[j].arrivalWork <= previous
      invariant if i == 0 then previous == c.observationStart else previous == workload[i - 1].arrivalWork
    {
      var r := workload[i];
      if || r.id in identities || r.arrivalWork < previous || r.tier !in c.tiers
         || !(c.observationStart <= r.arrivalWork < c.observationEnd) {
        Refused(c, workload, i, identities, previous);
        return false;
      }
      identities, previous := identities + {r.id}, r.arrivalWork;
    }
    assert workload[..|workload|] == workload;
    accepted := true;
  }

  lemma Refused(c: Config, workload: seq<Request>, i: nat, identities: set<string>, previous: real)
    requires i < |workload|
    requires forall id :: id in identities <==> exists j :: 0 <= j < i && workload[j].id == id
    requires if i == 0 then previous == c.observationStart else previous == workload[i - 1].arrivalWork
    requires || workload[i].id in identities || workload[i].arrivalWork < previous || workload[i].tier !in c.tiers
             || !(c.observationStart <= workload[i].arrivalWork < c.observationEnd)
    ensures !AcceptedWorkload(c, workload)
  {
  }

  class CausalKernel {
    const config: Config
    const caches: NodeCaches
    const snapshots: CacheSnapshotStore
    var queue: set<Event>
    var serial: nat
    var planned: map<Key, Pending>
    var pending: map<Key, Pending>
    var issued: set<Key>
    var pNodes: map<string, PNode>
    var dNodes: map<string, DNode>
    var now: real
    ghost var history: AttemptLog

    ghost function St(): State
      reads this, caches
    {
      State(now, queue, serial, planned, pending, issued, pNodes, dNodes, caches.sets, history)
    }

    /** The snapshots are of the kernel's own caches, and up to date but for the dirty nodes. */
    ghost predicate Snapshotted()
      reads this, snapshots, snapshots.cache, snapshots.mapping
    {
      snapshots.cache == caches && snapshots.Valid()
    }

    constructor (config: Config, workload: seq<Request>)
      ensures this.config == config && St() == Initial(config, workload)
      ensures Snapshotted() && fresh(caches) && fresh(snapshots)
    {
      this.config := config;
      now, queue, serial := config.observationStart, {}, 0;
      planned, pending, issued := map[], map[], {};
      pNodes := map n | n in config.prefillNodes :: PNode(config.observationStart, false, [], 0.0, None, [], []);
      dNodes := map n | n in config.decodeNodes :: DNode(config.observationStart, []);
      var sets, order := EmptyCaches(config.prefillNodes);
      caches := sets;
      snapshots := new CacheSnapshotStore(sets, order);
      history := Initial(config, workload).alog;
      new;
      PushArrivals(workload);
    }

    method PushArrivals(workload: seq<Request>)
      requires queue == {} && serial == 0
      modifies `queue, `serial
      ensures serial == |workload| && queue == set i | 0 <= i < |workload| :: ArrivalEvent(workload, i)
    {
      for i := 0 to |workload|
        invariant serial == i && queue == set j | 0 <= j < i :: ArrivalEvent(workload, j)
      {
        queue := queue + {ArrivalEvent(workload, i)};
        serial := serial + 1;
      }
    }

    static method EmptyCaches(nodes: set<string>) returns (caches: NodeCaches, order: seq<string>)
      ensures fresh(caches) && caches.sets == (map n | n in nodes :: {})
      ensures NoRepeats(order) && nodes == set n | n in order
    {
      hide NoRepeats;
      order := Listing(nodes);
      caches := new NodeCaches(order);
    }

    static method Listing(nodes: set<string>) returns (order: seq<string>)
      ensures NoRepeats(order) && forall n :: n in order <==> n in nodes
    {
      hide NoRepeats;
      NothingListed<string>();
      order := [];
      var left := nodes;
      while left != {}
        invariant left <= nodes && NoRepeats(order) && forall n :: n in order <==> n in nodes - left
        decreases left
      {
        var n :| n in left;
        NoRepeatsMore(order, n);
        order, left := order + [n], left - {n};
      }
    }

    method Push(at: real, kind: Kind, k: Key)
      modifies `queue, `serial
      ensures queue == old(queue) + {Event(at, kind, old(serial), Concerns(k))} && serial == old(serial) + 1
    {
      queue := queue + {Event(at, kind, serial, Concerns(k))};
      serial := serial + 1;
    }

    method IssueAttempt(r: Request, spec: Spec, at: real, ghost slot: int)
      modifies this
      ensures St() == Issue(old(St()), r, spec, at, slot)
    {
      var k := (spec.id, spec.index);
      ghost var t := Issue(St(), r, spec, at, slot);
      issued := issued + {k};
      planned := planned[k := NewPending(r, spec)];
      Push(at, AttemptReady, k);
      history := t.alog;
    }

    method HandleArrival(r: Request, plans: seq<Spec>) returns (res: Result<()>)
      modifies this
      ensures var t := OnArrival(config, old(St()), r, plans);
              if t.Ok? then res.Ok? && St() == t.value else res == Raised(t.error)
    {
      if |plans| > 1 { return Raised(TooManyPlans); }
      if |plans| == 1 {
        var refusal := ValidatePlan(config, r, plans[0], issued);
        if refusal.Some? { return Raised(refusal.value); }
        IssueAttempt(r, plans[0], plans[0].arrivalWork, -1);
      }
      res := Ok(());
    }

    /** heappop of a node's waiting heap, and its PREFILL_START. */
    method DispatchNext(n: string, at: real)
      requires n in pNodes && pNodes[n].waiting != []
      modifies `pNodes, `queue, `serial, `history
      ensures St() == Dispatch(old(St()), n, at)
    {
      ghost var t := Dispatch(St(), n, at);
      var v := pNodes[n];
      var i := LeastIndex(v.waiting);
      var k := v.waiting[i].key;
      pNodes := pNodes[n := v.(busy := true, waiting := v.waiting[..i] + v.waiting[i + 1..], holder := Some(k))];
      Push(at, PrefillStart, k);
      history := t.alog;
    }

    method JoinQueue(k: Key)
      requires k in planned && planned[k].spec.pNode in pNodes
      modifies `planned, `pending, `pNodes, `history
      ensures St() == Enqueue(config, old(St()), k)
    {
      ghost var t := Enqueue(config, St(), k);
      var item := planned[k].(attemptReady := Some(now));
      planned := planned - {k};
      pending := pending[k := item];
      var n := item.spec.pNode;
      var v := pNodes[n];
      pNodes := pNodes[n := v.(queuedWork := v.queuedWork + MaximumPrefillWork(config, item.request),
                               waiting := v.waiting + [Entry(now, serial, k)], ready := v.ready + [k])];
      history := t.alog;
    }

    method HandleReady(k: Key) returns (res: Result<()>)
      modifies this
      ensures var t := OnReady(config, old(St()), k);
              if t.Ok? then res.Ok? && St() == t.value else res == Raised(t.error)
    {
      hide LeastIndex; hide Moved; hide Dispatch;
      if k !in planned || planned[k].spec.pNode !in pNodes { return Raised(MissingKey); }
      var n := planned[k].spec.pNode;
      var busy := pNodes[n].busy;
      JoinQueue(k);
      if busy {
        serial := serial + 1;
      } else {
        DispatchNext(n, now);
      }
      res := Ok(());
    }

    /** fsum over what still waits. */
    method RemainingQueueWork(q: seq<Entry>) returns (work: real)
      requires AllPending(pending, q)
      ensures work == QueueWork(config, pending, q)
    {
      work := 0.0;
      var i := |q|;
      while i > 0
        invariant 0 <= i <= |q| && work == QueueWork(config, pending, q[i..])
      {
        i := i - 1;
        assert q[i] in q && q[i..][1..] == q[i + 1..];
        work := MaximumPrefillWork(config, pending[q[i].key].request) + work;
      }
    }

    method StartOnNode(k: Key)
      requires k in pending && pending[k].spec.pNode in pNodes && pending[k].spec.pNode in caches.sets
      requires AllPending(pending, pNodes[pending[k].spec.pNode].waiting)
      modifies `pending, `pNodes, `queue, `serial, `history
      ensures St() == StartPrefill(config, old(St()), k)
    {
      hide Priced; hide QueueWork;
      ghost var t := StartPrefill(config, St(), k);
      var n := pending[k].spec.pNode;
      var v := pNodes[n];
      var item := PricePrefill(config, pending[k].(prefillStart := Some(now)), caches.sets);
      var queued := RemainingQueueWork(v.waiting);
      var finish := now + item.prefillWork + item.kvsWork;
      pending := pending[k := item.(prefillFinish := Some(finish))];
      pNodes := pNodes[n := v.(queuedWork := queued, available := finish, ran := v.ran + [Span(k, now, finish)])];
      Push(finish, PrefillFinish, k);
      history := t.alog;
    }

    method HandlePrefillStart(k: Key) returns (res: Result<()>)
      modifies this
      ensures var t := OnPrefillStart(config, old(St()), k);
              if t.Ok? then res.Ok? && St() == t.value else res == Raised(t.error)
    {
      hide StartPrefill;
      if k !in pending { return Raised(MissingKey); }
      var n := pending[k].spec.pNode;
      if n !in pNodes || n !in caches.sets || !AllPending(pending, pNodes[n].waiting) { return Raised(MissingKey); }
      StartOnNode(k);
      res := Ok(());
    }

    /** The finished prefill frees its node, and the next waiting attempt takes it. */
    method FreeNode(k: Key, n: string)
      requires n in pNodes
      modifies `pNodes, `queue, `serial, `history
      ensures St() == HandOver(old(St()), k, n)
    {
      hide LeastIndex; hide Dispatch; hide Moved;
      ghost var t := Release(St(), k, n);
      var v := pNodes[n];
      pNodes := pNodes[n := v.(busy := false, holder := None)];
      history := t.alog;
      if v.waiting != [] {
        DispatchNext(n, Max(now, v.waiting[LeastIndex(v.waiting)].at));
      }
    }

    method GateDecode(k: Key, at: real)
      modifies `queue, `serial, `history
      ensures St() == Gate(old(St()), k, at)
    {
      ghost var t := Gate(St(), k, at);
      Push(at, DecodeStart, k);
      history := t.alog;
    }

    /** Book the D node, then ask for a lease. */
    method StartDecode(k: Key, leaseTokens: Option<int>) returns (res: Result<()>)
      requires k in pending && pending[k].spec.dNode in dNodes
      modifies `pending, `dNodes, `queue, `serial, `history
      ensures var t := BeginDecode(config, old(St()), k, leaseTokens);
              if t.Ok? then res.Ok? && St() == t.value else res == Raised(t.error)
    {
      hide DecodeWork;
      ghost var t := BeginDecode(config, St(), k, leaseTokens);
      var item := pending[k];
      var n := item.spec.dNode;
      var finish := now + DecodeWork(config, item.spec.emittedTokens);
      dNodes := dNodes[n := DNode(finish, dNodes[n].booked + [Span(k, now, finish)])];
      pending := pending[k := item.(decodeStart := Some(now), finish := Some(finish))];
      if leaseTokens.Some? {
        if !(0 < leaseTokens.value < item.spec.emittedTokens) { return Raised(LeaseNotPartial); }
        Push(now + DecodeWork(config, leaseTokens.value), LeaseBoundary, k);
      } else {
        Push(finish, Completion, k);
      }
      history := t.value.alog;
      res := Ok(());
    }

    method HandlePrefillFinish(k: Key, fence: real, leaseTokens: Option<int>) returns (res: Result<()>)
      modifies this
      ensures var t := OnPrefillFinish(config, old(St()), k, fence, leaseTokens);
              if t.Ok? then res.Ok? && St() == t.value else res == Raised(t.error)
    {
      hide HandOver; hide Gate; hide BeginDecode;
      if k !in pending || pending[k].spec.pNode !in pNodes { return Raised(MissingKey); }
      var spec := pending[k].spec;
      ghost var s := St();
      FreeNode(k, spec.pNode);
      HandOverFields(s, k, spec.pNode);
      if fence < now { return Raised(FenceNotCausal); }
      if spec.dNode !in dNodes { return Raised(MissingKey); }
      var start := Max(now, Max(dNodes[spec.dNode].available, fence));
      if start > now {
        GateDecode(k, start);
        res := Ok(());
      } else {
        res := StartDecode(k, leaseTokens);
      }
    }

    static lemma HandOverFields(s: State, k: Key, n: string)
      requires n in s.pNodes
      ensures var t := HandOver(s, k, n); t.now == s.now && t.pending == s.pending && t.dNodes == s.dNodes
    {
      hide LeastIndex; hide Moved;
    }

    method HandleDecodeStart(k: Key, fence: real, leaseTokens: Option<int>) returns (res: Result<()>)
      modifies this
      ensures var t := OnDecodeStart(config, old(St()), k, fence, leaseTokens);
              if t.Ok? then res.Ok? && St() == t.value else res == Raised(t.error)
    {
      hide Gate; hide BeginDecode;
      if k !in pending { return Raised(MissingKey); }
      if pending[k].decodeStart.Some? { return Ok(()); }
      var n := pending[k].spec.dNode;
      if n !in dNodes { return Raised(MissingKey); }
      var start := Max(now, Max(dNodes[n].available, fence));
      if start > now {
        GateDecode(k, start);
        res := Ok(());
      } else {
        res := StartDecode(k, leaseTokens);
      }
    }

    method WakeEach(sleepers: set<Key>) returns (ghost order: seq<Key>)
      modifies `queue, `serial
      ensures forall k :: k in order <==> k in sleepers
      ensures NoRepeats(order)
      ensures St() == Wake(old(St()), order)
    {
      hide Wake; hide NoRepeats;
      ghost var s := St();
      NobodyWoken(s);
      order := [];
      var left := sleepers;
      while left != {}
        invariant left <= sleepers && forall k :: k in order <==> k in sleepers - left
        invariant NoRepeats(order)
        invariant St() == Wake(s, order)
        decreases |left|
      {
        var k :| k in left;
        ghost var t := St();
        Push(now, DecodeStart, k);
        WakeOneMore(s, order, k);
        assert St() == t.(queue := queue, serial := serial);
        NoRepeatsMore(order, k);
        order := order + [k];
        left := left - {k};
      }
    }

    lemma {:induction false} NobodyWoken(s: State)
      ensures Wake(s, []) == s && NoRepeats<Key>([])
    {
    }

    /** Wake every attempt that sleeps behind the freed D node `n`, once each. */
    method WakeAll(n: string) returns (ghost order: seq<Key>)
      modifies `queue, `serial
      ensures Enumerates(old(St()), n, order) && St() == Wake(old(St()), order)
    {
      hide Wake;
      var sleepers := set e | e in queue && SleepsBehind(n, e) :: e.payload.key;
      forall k ensures k in sleepers <==> Sleeping(St(), n, k) {
        if Sleeping(St(), n, k) {
          var e :| e in queue && e.kind.DecodeStart? && e.at > now && e.payload == Concerns(k);
          assert SleepsBehind(n, e);
        }
      }
      order := WakeEach(sleepers);
    }

    predicate SleepsBehind(n: string, e: Event)
      reads this
    {
      && e.kind.DecodeStart? && e.at > now && e.payload.Concerns?
      && e.payload.key in pending && pending[e.payload.key].spec.dNode == n && pending[e.payload.key].decodeStart.None?
    }

    lemma {:induction false} WakeOneMore(s: State, order: seq<Key>, k: Key)
      ensures var t := Wake(s, order);
              Wake(s, order + [k])
              == t.(queue := t.queue + {Event(s.now, DecodeStart, t.serial, Concerns(k))}, serial := t.serial + 1)
    {
      assert (order + [k])[..|order + [k]| - 1] == order;
    }

    /** The abort: the attempt ends with what it has emitted, and its node is free. */
    method CutLease(k: Key, revised: Spec, emitted: nat)
      requires k in pending
      modifies `pending, `dNodes
      ensures St() == EndLease(old(St()), k, revised, emitted)
    {
      pending := pending[k := pending[k].(spec := revised.(emittedTokens := emitted), finish := Some(now))];
      var v := if revised.dNode in dNodes then dNodes[revised.dNode] else DNode(now, []);
      dNodes := dNodes[revised.dNode := CutShort(v, k, now)];
    }

    method PushCompletion(k: Key, at: real)
      modifies `queue, `serial, `history
      ensures St() == Complete(old(St()), k, at)
    {
      ghost var t := Complete(St(), k, at);
      Push(at, Completion, k);
      history := t.alog;
    }

    method HandleLeaseBoundary(k: Key, revised: Spec) returns (res: Result<()>, ghost order: seq<Key>)
      modifies this
      ensures var t := OnLeaseBoundary(config, old(St()), k, revised, order);
              if t.Ok? then res.Ok? && St() == t.value else res == Raised(t.error)
      ensures res.Ok? && revised.terminal.Aborted? ==> k in old(pending) && WakesSleepers(old(St()), k, revised, order)
    {
      hide EndLease; hide Complete; hide Wake; hide ElapsedTokens; hide Enumerates;
      order := [];
      if k !in pending { res := Raised(MissingKey); return; }
      var item := pending[k];
      if revised.terminal.Aborted? {
        if item.decodeStart.None? { res := Raised(MissingKey); return; }
        var emitted := ElapsedTokens(now - item.decodeStart.value, config.cost.decodePerToken);
        if emitted.Raised? { res := Raised(emitted.error); return; }
        if !(0 < emitted.value < item.spec.emittedTokens) { res := Raised(NoPartialProgress); return; }
        ghost var s := St();
        CutLease(k, revised, emitted.value);
        order := WakeAll(revised.dNode);
        SleepersIgnoreTokens(s, k, revised, emitted.value, order);
        PushCompletion(k, now);
      } else {
        if item.finish.None? { res := Raised(MissingKey); return; }
        PushCompletion(k, item.finish.value);
      }
      res := Ok(());
    }

    lemma SleepersIgnoreTokens(s: State, k: Key, revised: Spec, emitted: nat, order: seq<Key>)
      requires k in s.pending && Enumerates(EndLease(s, k, revised, emitted), revised.dNode, order)
      ensures Enumerates(EndLease(s, k, revised, 0), revised.dNode, order)
    {
      var x, y := EndLease(s, k, revised, emitted), EndLease(s, k, revised, 0);
      forall j ensures Sleeping(x, revised.dNode, j) <==> Sleeping(y, revised.dNode, j) {
        assert x.queue == y.queue;
      }
    }

    /** `_apply_cache_mutation` on the attempt's own P node, when it made something reusable. */
    method MutateCache(item: Pending, m: Mutation) returns (res: Result<()>)
      requires Snapshotted()
      modifies snapshots, caches
      ensures var t := CacheAfter(config, old(caches.sets), item, m);
              if t.Ok? then res.Ok? && caches.sets == t.value && Snapshotted() else res == Raised(t.error)
    {
      hide Mutated;
      if !item.spec.terminal.Completed? && !item.spec.prefillReusable { return Ok(()); }
      if item.spec.pNode !in caches.sets { return Raised(MissingKey); }
      res := snapshots.Complete(item.spec.pNode, KeysOf(item.request.prefix), m, config);
    }

    /** What a hook is shown now, besides the snapshot of the caches. */
    function ViewNow(e: Event, cache: map<string, set<string>>): View
      reads this
    {
      View(if e.payload.Concerns? && e.payload.key in pending then pending[e.payload.key].spec else NO_ATTEMPT,
           cache,
           map n | n in pNodes :: pNodes[n].available,
           map n | n in dNodes :: dNodes[n].available,
           map n | n in pNodes :: pNodes[n].queuedWork)
    }

    /** The hooks are asked with a lazily refreshed snapshot and answer as to an exact view. */
    method Ask(policy: Policy, i: nat, e: Event) returns (a: Answers)
      requires Snapshotted()
      modifies snapshots
      ensures Snapshotted() && a == policy.answers(i, e, ViewOf(St(), e))
    {
      var mapping, union := snapshots.View();
      a := policy.answers(i, e, ViewNow(e, mapping.entries));
    }

    method HandleCompletion(policy: Policy, i: nat, e: Event, m: Mutation) returns (res: Result<()>)
      requires Snapshotted() && e.payload.Concerns?
      modifies this, snapshots, caches
      ensures var t := OnCompletion(config, old(St()), e.payload.key, m, RetryAsked(config, policy, i, old(St()), e, m));
              if t.Ok? then res.Ok? && St() == t.value && Snapshotted() else res == Raised(t.error)
    {
      hide CacheAfter; hide Issue; hide ValidatePlan;
      var k := e.payload.key;
      if k !in pending { return Raised(MissingKey); }
      var item := pending[k];
      ghost var s := St();
      res := MutateCache(item, m);
      if res.Raised? { return; }
      history := Settle(s, k).alog;
      if !item.spec.terminal.Completed? {
        var mapping, union := snapshots.View();
        assert ViewNow(e, mapping.entries) == ViewOf(s.(cache := caches.sets), e);
        var retry := policy.retry(i, e, ViewNow(e, mapping.entries));
        if retry.Some? {
          if item.spec.index >= config.retryBudget { return Raised(RetryBudgetExhausted); }
          var refusal := ValidatePlan(config, item.request, retry.value, issued);
          if refusal.Some? { return Raised(refusal.value); }
          IssueAttempt(item.request, retry.value, Max(now, retry.value.arrivalWork), RetrySlot(config, k, now));
        }
      }
    }

    method Arrive(policy: Policy, i: nat, e: Event) returns (res: Result<()>)
      requires Snapshotted() && e.payload.Arrives?
      modifies this, snapshots
      ensures var t := OnArrival(config, old(St()), e.payload.request, policy.answers(i, e, ViewOf(old(St()), e)).plans);
              if t.Ok? then res.Ok? && St() == t.value && Snapshotted() else res == Raised(t.error)
    {
      hide OnArrival; hide ViewOf;
      var a := Ask(policy, i, e);
      res := HandleArrival(e.payload.request, a.plans);
    }

    method FinishPrefill(policy: Policy, i: nat, e: Event) returns (res: Result<()>)
      requires Snapshotted() && e.payload.Concerns?
      modifies this, snapshots
      ensures var a := policy.answers(i, e, ViewOf(old(St()), e));
              var t := OnPrefillFinish(config, old(St()), e.payload.key, a.fence, a.leaseTokens);
              if t.Ok? then res.Ok? && St() == t.value && Snapshotted() else res == Raised(t.error)
    {
      hide OnPrefillFinish; hide ViewOf;
      var a := Ask(policy, i, e);
      res := HandlePrefillFinish(e.payload.key, a.fence, a.leaseTokens);
    }

    /** A duplicate wake-up asks nobody. */
    method WakeUp(policy: Policy, i: nat, e: Event) returns (res: Result<()>)
      requires Snapshotted() && e.payload.Concerns?
      modifies this, snapshots
      ensures var a := policy.answers(i, e, ViewOf(old(St()), e));
              var t := OnDecodeStart(config, old(St()), e.payload.key, a.fence, a.leaseTokens);
              if t.Ok? then res.Ok? && St() == t.value && Snapshotted() else res == Raised(t.error)
    {
      hide Gate; hide BeginDecode; hide ViewOf;
      if e.payload.key in pending && pending[e.payload.key].decodeStart.Some? { return Ok(()); }
      var a := Ask(policy, i, e);
      res := HandleDecodeStart(e.payload.key, a.fence, a.leaseTokens);
    }

    method EndOfLease(policy: Policy, i: nat, e: Event) returns (res: Result<()>, ghost order: seq<Key>)
      requires Snapshotted() && e.payload.Concerns?
      modifies this, snapshots
      ensures var a := policy.answers(i, e, ViewOf(old(St()), e));
              var t := OnLeaseBoundary(config, old(St()), e.payload.key, a.revised, order);
              && (if t.Ok? then res.Ok? && St() == t.value && Snapshotted() else res == Raised(t.error))
              && (res.Ok? && a.revised.terminal.Aborted? ==>
                    e.payload.key in old(pending) && WakesSleepers(old(St()), e.payload.key, a.revised, order))
    {
      hide OnLeaseBoundary; hide WakesSleepers; hide ViewOf;
      var a := Ask(policy, i, e);
      res, order := HandleLeaseBoundary(e.payload.key, a.revised);
    }

    method CompleteAttempt(policy: Policy, i: nat, e: Event) returns (res: Result<()>)
      requires Snapshotted() && e.payload.Concerns?
      modifies this, snapshots, caches
      ensures var a := Asked(config, policy, i, old(St()), e);
              var t := OnCompletion(config, old(St()), e.payload.key, a.mutation, a.retry);
              if t.Ok? then res.Ok? && St() == t.value && Snapshotted() else res == Raised(t.error)
    {
      hide OnCompletion; hide ViewOf; hide RetryAsked;
      var a := Ask(policy, i, e);
      res := HandleCompletion(policy, i, e, a.mutation);
    }

    /** The branch of the event's kind. */
    method HandleOwn(policy: Policy, i: nat, e: Event) returns (res: Result<()>, ghost order: seq<Key>)
      requires Snapshotted() && e.payload.Concerns?
      modifies this, snapshots, caches
      ensures var t := Handle(config, old(St()), e, Asked(config, policy, i, old(St()), e).(wakeOrder := order));
              if t.Ok? then res.Ok? && St() == t.value && Snapshotted() else res == Raised(t.error)
      ensures var a := Asked(config, policy, i, old(St()), e);
              res.Ok? && e.kind.LeaseBoundary? && a.revised.terminal.Aborted? ==>
                e.payload.key in old(pending) && WakesSleepers(old(St()), e.payload.key, a.revised, order)
    {
      hide OnReady; hide OnPrefillStart; hide OnPrefillFinish; hide OnDecodeStart; hide OnLeaseBoundary; hide OnCompletion;
      hide OnArrival; hide WakesSleepers; hide ViewOf; hide RetryAsked;
      order := [];
      match e.kind
      case AttemptReady => res := HandleReady(e.payload.key);
      case PrefillStart => res := HandlePrefillStart(e.payload.key);
      case PrefillFinish => res := FinishPrefill(policy, i, e);
      case DecodeStart => res := WakeUp(policy, i, e);
      case LeaseBoundary => res, order := EndOfLease(policy, i, e);
      case Completion => res := CompleteAttempt(policy, i, e);
      case Arrival => res := Ok(());
    }

    /** Advance the clock to `e` and handle it: exactly one step, with the policy's answers to
        exact views. */
    method HandleEvent(policy: Policy, i: nat, e: Event) returns (res: Result<()>, ghost order: seq<Key>)
      requires Snapshotted()
      modifies this, snapshots, caches
      ensures var t := Step(config, old(St()), e, Asked(config, policy, i, old(St()), e).(wakeOrder := order));
              if t.Ok? then res.Ok? && St() == t.value && Snapshotted() else res == Raised(t.error)
      ensures var a := Asked(config, policy, i, old(St()), e);
              res.Ok? && e.payload.Concerns? && e.kind.LeaseBoundary? && a.revised.terminal.Aborted? ==>
                && e.payload.key in old(pending)
                && WakesSleepers(old(Pop(St(), e)), e.payload.key, a.revised, order)
    {
      hide OnReady; hide OnPrefillStart; hide OnPrefillFinish; hide OnDecodeStart; hide OnLeaseBoundary; hide OnCompletion;
      hide OnArrival; hide WakesSleepers; hide ViewOf; hide RetryAsked;
      ViewsIgnoreClock(config, policy, i, St(), e);
      now := e.at;
      queue := queue - {e};
      if e.payload.Arrives? {
        order := [];
        res := Arrive(policy, i, e);
      } else {
        res, order := HandleOwn(policy, i, e);
      }
    }

    static lemma ViewsIgnoreClock(c: Config, policy: Policy, i: nat, s: State, e: Event)
      ensures ViewOf(Pop(s, e), e) == ViewOf(s, e)
      ensures Asked(c, policy, i, Pop(s, e), e) == Asked(c, policy, i, s, e)
    {
    }

    /** heappop. */
    method NextEventInQueue() returns (e: Event)
      requires queue != {}
      ensures IsNext(queue, e)
    {
      NextExists(queue);
      e :| e in queue && forall f :: f in queue ==> !Before(f, e);
    }

    static lemma NextExists(q: set<Event>)
      requires q != {}
      ensures exists e :: IsNext(q, e)
      decreases |q|
    {
      var x :| x in q;
      if q != {x} {
        assert x in q && q - {x} != {};
        NextExists(q - {x});
        var y :| IsNext(q - {x}, y);
        var first := if Before(x, y) then x else y;
        forall f | f in q ensures !Before(f, first) {
          assert f != x ==> f in q - {x} && !Before(f, y);
          BeforeChains(f, x, y);
        }
        assert IsNext(q, first);
      } else {
        assert IsNext(q, x);
      }
    }

    static lemma BeforeChains(f: Event, x: Event, y: Event)
      ensures !Before(x, x)
      ensures Before(f, x) && Before(x, y) ==> Before(f, y)
    {
    }

    /** One turn of the loop: whether an event was handled, or the horizon is passed. */
    method TakeTurn(policy: Policy, i: nat, ghost w: map<string, Request>) returns (res: Result<bool>, ghost turn: Turn)
      requires ValidConfig(config) && ValidRequests(w) && Safe(config, w, St()) && queue != {} && Snapshotted()
      modifies this, snapshots, caches
      ensures res.Ok? ==> Safe(config, w, St()) && Snapshotted()
      ensures res == Ok(true) ==>
                && Legal(config, old(St()), turn) && Answered(config, policy, i, old(St()), turn)
                && Step(config, old(St()), turn.event, turn.answers) == Ok(St())
      ensures res == Ok(false) ==> St() == old(St()) && forall e :: e in queue ==> e.at > config.observationEnd
      ensures forall pay: Potential :: res == Ok(true) && Pays(old(St()), turn.event, turn.answers, pay) ==>
                                         Descends(pay, old(St()), St())
      ensures res.Raised? ==> Blamed(config, old(St()), res.error)
    {
      hide Safe; hide Step; hide ValidConfig; hide ValidRequests; hide IsNext; hide Descends; hide PolicyFault; hide Pays;
      hide ListsSleepers; hide RetryAsked;
      var e := NextEventInQueue();
      turn := Turn(e, Asked(config, policy, i, St(), e));
      NextIsFirst(queue, e);
      if e.at > config.observationEnd { res := Ok(false); return; }
      ghost var s := St();
      var handled, order := HandleEvent(policy, i, e);
      ghost var a := Asked(config, policy, i, s, e).(wakeOrder := order);
      turn := Turn(e, a);
      if handled.Raised? {
        StepRaisesForPolicyOnly(config, w, s, e, a);
        res := Raised(handled.error);
        return;
      }
      ListedTurn(config, policy, i, s, e, order);
      StepKeeps(config, w, s, e, a);
      forall pay: Potential | Pays(s, e, a, pay) ensures Descends(pay, s, St()) {
        StepDescends(config, w, s, e, a, pay);
      }
      res := Ok(true);
    }

    /** The loop.  If the policy pays for its delays it ends; it is a run of the state machine that
        the policy answered from exact views, and without a refused answer every event up to the
        horizon is processed. */
    method Run(policy: Policy, ghost pay: Potential, ghost workload: seq<Request>)
      returns (res: Result<()>, ghost states: seq<State>, ghost turns: seq<Turn>)
      requires ValidConfig(config) && ValidWorkload(config, workload) && St() == Initial(config, workload) && Snapshotted()
      requires PaysOnRuns(config, policy, workload, pay)
      modifies this, snapshots, caches
      ensures IsRunOf(config, policy, workload, states, turns) && |states| == |turns| + 1
      ensures res.Ok? ==> St() == states[|turns|] && Safe(config, ById(workload), St())
                          && forall e :: e in queue ==> e.at > config.observationEnd
      ensures res.Raised? ==> Blamed(config, states[|turns|], res.error)
    {
      hide Safe; hide Ahead; hide Early; hide Weight; hide ValidConfig; hide ValidRequest; hide ById; hide Pays;
      hide PaysOnRuns; hide IsRunOf; hide Blamed; hide Legal; hide Answered; hide Step;
      InitialIsSafe(config, workload);
      NoTurnYet(config, policy, workload);
      states, turns := [St()], [];
      ghost var w := ById(workload);
      var i := 0;
      while queue != {}
        invariant Safe(config, w, St()) && Snapshotted()
        invariant |turns| == i && |states| == i + 1 && states[i] == St()
        invariant IsRunOf(config, policy, workload, states, turns)
        decreases Ahead(history.rank), Early(St()), Weight(pay, history.rank, queue), |queue|
      {
        var more, turn := TakeTurn(policy, i, w);
        if more.Raised? { res := Raised(more.error); return; }
        if !more.value { break; }
        OneMoreTurn(config, policy, workload, states, turns, turn, St());
        states, turns := states + [St()], turns + [turn];
        LastTurnPays(config, policy, workload, states, turns, pay);
        i := i + 1;
      }
      res := Ok(());
    }

    /** The first turns of the loop, whatever the fences: a run of the state machine, and safe. */
    method RunFor(policy: Policy, limit: nat, ghost workload: seq<Request>)
      returns (res: Result<()>, ghost states: seq<State>, ghost turns: seq<Turn>)
      requires ValidConfig(config) && ValidWorkload(config, workload) && St() == Initial(config, workload) && Snapshotted()
      modifies this, snapshots, caches
      ensures IsRunOf(config, policy, workload, states, turns) && |turns| <= limit && |states| == |turns| + 1
      ensures res.Ok? ==> St() == states[|turns|] && Safe(config, ById(workload), St())
      ensures res.Raised? ==> Blamed(config, states[|turns|], res.error)
    {
      hide Safe; hide ValidConfig; hide ValidRequest; hide ById; hide Descends;
      hide IsRunOf; hide Blamed; hide Legal; hide Answered; hide Step;
      InitialIsSafe(config, workload);
      NoTurnYet(config, policy, workload);
      states, turns := [St()], [];
      ghost var w := ById(workload);
      var i := 0;
      while i < limit && queue != {}
        invariant Safe(config, w, St()) && Snapshotted() && i <= limit
        invariant |turns| == i && |states| == i + 1 && states[i] == St()
        invariant IsRunOf(config, policy, workload, states, turns)
      {
        var more, turn := TakeTurn(policy, i, w);
        if more.Raised? { res := Raised(more.error); return; }
        if !more.value { break; }
        OneMoreTurn(config, policy, workload, states, turns, turn, St());
        states, turns := states + [St()], turns + [turn];
        i := i + 1;
      }
      res := Ok(());
    }

    lemma NextIsFirst(q: set<Event>, e: Event)
      requires IsNext(q, e)
      ensures e in q && forall f :: f in q ==> e.at <= f.at
    {
      forall f | f in q ensures e.at <= f.at {
        assert !Before(f, e);
      }
    }
  }

  lemma ListedTurn(c: Config, policy: Policy, i: nat, s: State, e: Event, order: seq<Key>)
    requires Aborts(s, e, Asked(c, policy, i, s, e)) ==>
               WakesSleepers(Pop(s, e), e.payload.key, Asked(c, policy, i, s, e).revised, order)
    ensures ListsSleepers(s, e, Asked(c, policy, i, s, e).(wakeOrder := order))
  {
    hide WakesSleepers; hide RetryAsked;
  }

  // --- the loop is a run ----------------------------------------------------

  lemma LastTurnPays(c: Config, policy: Policy, workload: seq<Request>, states: seq<State>, turns: seq<Turn>, pay: Potential)
    requires IsRunOf(c, policy, workload, states, turns) && PaysOnRuns(c, policy, workload, pay)
    requires |turns| > 0 && |states| == |turns| + 1
    ensures var i := |turns| - 1; Pays(states[i], turns[i].event, turns[i].answers, pay)
  {
    hide IsRunOf; hide Pays;
    assert PaidThroughout(states, turns, pay);
  }

  lemma NoTurnYet(c: Config, policy: Policy, workload: seq<Request>)
    ensures IsRunOf(c, policy, workload, [Initial(c, workload)], [])
  {
  }

  lemma OneMoreTurn(c: Config, policy: Policy, workload: seq<Request>, states: seq<State>, turns: seq<Turn>, turn: Turn,
                    t: State)
    requires IsRunOf(c, policy, workload, states, turns)
    requires var s := states[|turns|];
             Legal(c, s, turn) && Answered(c, policy, |turns|, s, turn) && Step(c, s, turn.event, turn.answers) == Ok(t)
    ensures IsRunOf(c, policy, workload, states + [t], turns + [turn])
  {
    hide Legal; hide Answered; hide Step; hide Initial;
  }
}
