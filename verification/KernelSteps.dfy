/** One step per popped event of `CausalKernel.run` (src/prefill_cache_sim/m12_kernel.py).
    A state holds the run's own tables and, beside them, a history of what happened.
    Policy hooks are arbitrary answers, constrained only by what the kernel checks.
 */
module KernelSteps {
  import opened Lists
  import opened Options
  import opened KernelModel

  datatype Kind = Completion | LeaseBoundary | PrefillFinish | DecodeStart | AttemptReady | PrefillStart | Arrival

  function Priority(kind: Kind): nat {
    match kind
    case Completion => 0
    case LeaseBoundary => 1
    case PrefillFinish => 2
    case DecodeStart => 3
    case AttemptReady => 4
    case PrefillStart => 5
    case Arrival => 6
  }

  datatype Payload = Arrives(request: Request) | Concerns(key: Key)

  datatype Event = Event(at: real, kind: Kind, serial: nat, payload: Payload)

  /** The order of the event heap. */
  predicate Before(e: Event, f: Event) {
    || e.at < f.at
    || (e.at == f.at && Priority(e.kind) < Priority(f.kind))
    || (e.at == f.at && e.kind == f.kind && e.serial < f.serial)
  }

  predicate IsNext(queue: set<Event>, e: Event) {
    e in queue && forall f :: f in queue ==> !Before(f, e)
  }

  /** An attempt waiting for its P node. */
  datatype Entry = Entry(at: real, serial: nat, key: Key)

  predicate EntryBefore(x: Entry, y: Entry) {
    x.at < y.at || (x.at == y.at && x.serial < y.serial)
  }

  /** The entry a waiting heap would pop. */
  function LeastIndex(w: seq<Entry>): (i: nat)
    requires w != []
    ensures i < |w| && forall j :: 0 <= j < |w| ==> !EntryBefore(w[j], w[i])
  {
    if |w| == 1 then 0
    else
      var rest := 1 + LeastIndex(w[1..]);
      assert forall j :: 1 <= j < |w| ==> w[j] == w[1..][j - 1];
      if EntryBefore(w[rest], w[0]) then rest else 0
  }

  /** History: where an attempt stands, with the event that will move it on. */
  datatype Stage =
    | Planned(event: Event)
    | Waiting
    | Scheduled(event: Event)
    | Prefilling(event: Event)
    | Prefilled
    | Gated(event: Event)
    | Leased(event: Event)
    | Completing(event: Event)
    | Done

  /** The rank of a slot no attempt has taken. */
  const UNISSUED: nat := 9

  function Rank(st: Stage): nat {
    match st
    case Planned(_) => 8
    case Waiting => 7
    case Scheduled(_) => 6
    case Prefilling(_) => 5
    case Prefilled => 4
    case Gated(_) => 3
    case Leased(_) => 2
    case Completing(_) => 1
    case Done => 0
  }

  /** One use of a node: half-open, from start to finish. */
  datatype Span = Span(key: Key, start: real, finish: real)

  /** A P node: when its last prefill ends, whether it is taken, its waiting heap and the
      queue proxy; and its history: who holds it, who became ready for it, what it ran. */
  datatype PNode = PNode(
    available: real,
    busy: bool,
    waiting: seq<Entry>,
    queuedWork: real,
    holder: Option<Key>,
    ready: seq<Key>,
    ran: seq<Span>)

  /** A D node: until when it is booked, and its history of bookings. */
  datatype DNode = DNode(available: real, booked: seq<Span>)

  /** How many delays of at least `delta` fit between `at` and the horizon, counting the event at
      `at` itself. */
  function DelaysLeft(horizon: real, delta: real, at: real): nat
    requires delta > 0.0
  {
    if at > horizon then 0 else ((horizon - at) / delta).Floor + 1
  }

  /** The slot of a retry at `at` that no index within the budget pays for: such a retry follows an
      abort, and an abort follows at least one token of decoding, so these slots run out. */
  function OvertimeSlot(c: Config, at: real): nat {
    c.retryBudget
    + if c.cost.decodePerToken > 0.0 then DelaysLeft(c.observationEnd, c.cost.decodePerToken, at) else 0
  }

  function RetrySlot(c: Config, k: Key, at: real): int {
    if k.1 < c.retryBudget then k.1 else OvertimeSlot(c, at)
  }

  /** History of the attempts.  The slot of an attempt is the index of the attempt it
      retries, or -1, or an overtime slot; `rank` is what is left to do in every slot of the
      workload, `since` is when an attempt was issued, and `position` is where it stands among its
      D node's bookings. */
  datatype AttemptLog = AttemptLog(
    stage: map<Key, Stage>,
    position: map<Key, nat>,
    since: map<Key, real>,
    slot: map<Key, int>,
    owner: map<(string, int), Key>,
    rank: map<(string, int), nat>,
    completed: seq<Key>)

  datatype State = State(
    now: real,
    queue: set<Event>,
    serial: nat,
    planned: map<Key, Pending>,
    pending: map<Key, Pending>,
    issued: set<Key>,
    pNodes: map<string, PNode>,
    dNodes: map<string, DNode>,
    cache: map<string, set<string>>,
    alog: AttemptLog)

  /** What the hooks may answer at one step; a step reads only what it asks for. */
  datatype Answers = Answers(
    plans: seq<Spec>,
    fence: real,
    leaseTokens: Option<int>,
    revised: Spec,
    mutation: Mutation,
    retry: Option<Spec>,
    wakeOrder: seq<Key>)

  function Moved(log: AttemptLog, k: Key, st: Stage): AttemptLog {
    if k in log.slot then log.(stage := log.stage[k := st], rank := log.rank[(k.0, log.slot[k]) := Rank(st)])
    else log.(stage := log.stage[k := st])
  }

  function NextEvent(s: State, at: real, kind: Kind, k: Key): Event {
    Event(at, kind, s.serial, Concerns(k))
  }

  function Push(s: State, e: Event): State {
    s.(queue := s.queue + {e}, serial := s.serial + 1)
  }

  // --- issuing attempts -----------------------------------------------------

  function Issue(s: State, r: Request, spec: Spec, at: real, slot: int): State {
    var k := (spec.id, spec.index);
    var e := NextEvent(s, at, AttemptReady, k);
    Push(s, e).(planned := s.planned[k := NewPending(r, spec)],
                issued := s.issued + {k},
                alog := s.alog.(stage := s.alog.stage[k := Planned(e)],
                                since := s.alog.since[k := s.now],
                                slot := s.alog.slot[k := slot],
                                owner := s.alog.owner[(spec.id, slot) := k],
                                rank := s.alog.rank[(spec.id, slot) := Rank(Planned(e))]))
  }

  function OnArrival(c: Config, s: State, r: Request, plans: seq<Spec>): Result<State> {
    if |plans| > 1 then Raised(TooManyPlans)
    else if plans == [] then Ok(s)
    else
      var refusal := ValidatePlan(c, r, plans[0], s.issued);
      if refusal.Some? then Raised(refusal.value)
      else Ok(Issue(s, r, plans[0], plans[0].arrivalWork, -1))
  }

  // --- the P side -----------------------------------------------------------

  /** Another attempt waits for the node. */
  function Joined(v: PNode, x: Entry, work: real): PNode {
    v.(waiting := v.waiting + [x], queuedWork := v.queuedWork + work, ready := v.ready + [x.key])
  }

  function Enqueue(c: Config, s: State, k: Key): State
    requires k in s.planned && s.planned[k].spec.pNode in s.pNodes
  {
    var item := s.planned[k].(attemptReady := Some(s.now));
    var n := item.spec.pNode;
    s.(planned := s.planned - {k},
       pending := s.pending[k := item],
       pNodes := s.pNodes[n := Joined(s.pNodes[n], Entry(s.now, s.serial, k), MaximumPrefillWork(c, item.request))],
       alog := Moved(s.alog, k, Waiting))
  }

  /** The attempt the waiting heap pops takes the node. */
  function Dispatched(v: PNode): PNode
    requires v.waiting != []
  {
    var i := LeastIndex(v.waiting);
    v.(busy := true, waiting := v.waiting[..i] + v.waiting[i + 1..], holder := Some(v.waiting[i].key))
  }

  function Dispatch(s: State, n: string, at: real): State
    requires n in s.pNodes && s.pNodes[n].waiting != []
  {
    var v := s.pNodes[n];
    var k := v.waiting[LeastIndex(v.waiting)].key;
    var e := NextEvent(s, at, PrefillStart, k);
    Push(s, e).(pNodes := s.pNodes[n := Dispatched(v)], alog := Moved(s.alog, k, Scheduled(e)))
  }

  function OnReady(c: Config, s: State, k: Key): Result<State> {
    if k !in s.planned || s.planned[k].spec.pNode !in s.pNodes then Raised(MissingKey)
    else
      var n := s.planned[k].spec.pNode;
      var t := Enqueue(c, s, k);
      Ok(if s.pNodes[n].busy then t.(serial := s.serial + 1) else Dispatch(t, n, s.now))
  }

  /** The queue proxy: the maximum work of everything still waiting. */
  function QueueWork(c: Config, pending: map<Key, Pending>, q: seq<Entry>): real {
    if q == [] then 0.0
    else
      (if q[0].key in pending then MaximumPrefillWork(c, pending[q[0].key].request) else 0.0)
      + QueueWork(c, pending, q[1..])
  }

  predicate AllPending(pending: map<Key, Pending>, q: seq<Entry>) {
    forall x :: x in q ==> x.key in pending
  }

  /** The node's holder runs until `finish`. */
  function Running(v: PNode, k: Key, start: real, finish: real, queued: real): PNode {
    v.(available := finish, queuedWork := queued, ran := v.ran + [Span(k, start, finish)])
  }

  function StartPrefill(c: Config, s: State, k: Key): State
    requires k in s.pending && s.pending[k].spec.pNode in s.pNodes && s.pending[k].spec.pNode in s.cache
  {
    var n := s.pending[k].spec.pNode;
    var item := Priced(c, s.pending[k].(prefillStart := Some(s.now)), s.cache);
    var finish := s.now + item.prefillWork + item.kvsWork;
    var e := NextEvent(s, finish, PrefillFinish, k);
    var v := s.pNodes[n];
    Push(s, e).(pending := s.pending[k := item.(prefillFinish := Some(finish))],
                pNodes := s.pNodes[n := Running(v, k, s.now, finish, QueueWork(c, s.pending, v.waiting))],
                alog := Moved(s.alog, k, Prefilling(e)))
  }

  function OnPrefillStart(c: Config, s: State, k: Key): Result<State> {
    if k !in s.pending then Raised(MissingKey)
    else
      var n := s.pending[k].spec.pNode;
      if n !in s.pNodes || n !in s.cache || !AllPending(s.pending, s.pNodes[n].waiting) then Raised(MissingKey)
      else Ok(StartPrefill(c, s, k))
  }

  function Freed(v: PNode): PNode { v.(busy := false, holder := None) }

  function Release(s: State, k: Key, n: string): State
    requires n in s.pNodes
  {
    s.(pNodes := s.pNodes[n := Freed(s.pNodes[n])], alog := Moved(s.alog, k, Prefilled))
  }

  /** The node is free; the next waiting attempt takes it. */
  function HandOver(s: State, k: Key, n: string): State
    requires n in s.pNodes
  {
    var w := s.pNodes[n].waiting;
    if w == [] then Release(s, k, n) else Dispatch(Release(s, k, n), n, Max(s.now, w[LeastIndex(w)].at))
  }

  // --- the D side -----------------------------------------------------------

  function DecodeWork(c: Config, tokens: int): real { tokens as real * c.cost.decodePerToken }

  /** Book the node until the full output would be out; a lease comes back earlier. */
  function BeginDecode(c: Config, s: State, k: Key, lease: Option<int>): Result<State>
    requires k in s.pending && s.pending[k].spec.dNode in s.dNodes
  {
    var item := s.pending[k];
    var v := s.dNodes[item.spec.dNode];
    var finish := s.now + DecodeWork(c, item.spec.emittedTokens);
    if lease.Some? && !(0 < lease.value < item.spec.emittedTokens) then Raised(LeaseNotPartial)
    else
      var e := if lease.Some? then NextEvent(s, s.now + DecodeWork(c, lease.value), LeaseBoundary, k)
               else NextEvent(s, finish, Completion, k);
      Ok(Push(s, e).(pending := s.pending[k := item.(decodeStart := Some(s.now), finish := Some(finish))],
                     dNodes := s.dNodes[item.spec.dNode := DNode(finish, v.booked + [Span(k, s.now, finish)])],
                     alog := Moved(s.alog, k, if lease.Some? then Leased(e) else Completing(e))
                             .(position := s.alog.position[k := |v.booked|])))
  }

  function Gate(s: State, k: Key, at: real): State {
    var e := NextEvent(s, at, DecodeStart, k);
    Push(s, e).(alog := Moved(s.alog, k, Gated(e)))
  }

  function OnPrefillFinish(c: Config, s: State, k: Key, fence: real, lease: Option<int>): Result<State> {
    if k !in s.pending || s.pending[k].spec.pNode !in s.pNodes then Raised(MissingKey)
    else if fence < s.now then Raised(FenceNotCausal)
    else if s.pending[k].spec.dNode !in s.dNodes then Raised(MissingKey)
    else
      var t := HandOver(s, k, s.pending[k].spec.pNode);
      var start := Max(s.now, Max(s.dNodes[s.pending[k].spec.dNode].available, fence));
      if start > s.now then Ok(Gate(t, k, start)) else BeginDecode(c, t, k, lease)
  }

  function OnDecodeStart(c: Config, s: State, k: Key, fence: real, lease: Option<int>): Result<State> {
    if k !in s.pending then Raised(MissingKey)
    else if s.pending[k].decodeStart.Some? then Ok(s)
    else if s.pending[k].spec.dNode !in s.dNodes then Raised(MissingKey)
    else
      var start := Max(s.now, Max(s.dNodes[s.pending[k].spec.dNode].available, fence));
      if start > s.now then Ok(Gate(s, k, start)) else BeginDecode(c, s, k, lease)
  }

  // --- lease boundaries -----------------------------------------------------

  /** Attempts of node `n` gated to a later instant and not yet started. */
  ghost predicate Sleeping(s: State, n: string, k: Key) {
    && k in s.pending && s.pending[k].spec.dNode == n && s.pending[k].decodeStart.None?
    && exists e :: e in s.queue && e.kind.DecodeStart? && e.at > s.now && e.payload == Concerns(k)
  }

  /** `order` lists the sleeping attempts, each once. */
  ghost predicate Enumerates(s: State, n: string, order: seq<Key>) {
    && (forall k :: k in order <==> Sleeping(s, n, k))
    && NoRepeats(order)
  }

  function Wake(s: State, order: seq<Key>): State
    decreases |order|
  {
    if order == [] then s
    else
      var t := Wake(s, order[..|order| - 1]);
      Push(t, NextEvent(t, s.now, DecodeStart, order[|order| - 1]))
  }

  /** The booking of `k` is cut short: the node is free at `at`. */
  function CutShort(v: DNode, k: Key, at: real): (r: DNode)
    ensures r.available == at && |r.booked| == |v.booked|
    ensures forall i :: 0 <= i < |v.booked| ==>
              r.booked[i] == (if v.booked[i].key == k then v.booked[i].(finish := at) else v.booked[i])
  {
    DNode(at, seq(|v.booked|, i requires 0 <= i < |v.booked| =>
                    if v.booked[i].key == k then v.booked[i].(finish := at) else v.booked[i]))
  }

  /** The attempt ends here; its node is free at once. */
  function EndLease(s: State, k: Key, revised: Spec, emitted: nat): State
    requires k in s.pending
  {
    var item := s.pending[k].(spec := revised.(emittedTokens := emitted), finish := Some(s.now));
    var v := if revised.dNode in s.dNodes then s.dNodes[revised.dNode] else DNode(s.now, []);
    s.(pending := s.pending[k := item], dNodes := s.dNodes[revised.dNode := CutShort(v, k, s.now)])
  }

  function Complete(s: State, k: Key, at: real): State {
    var e := NextEvent(s, at, Completion, k);
    Push(s, e).(alog := Moved(s.alog, k, Completing(e)))
  }

  function OnLeaseBoundary(c: Config, s: State, k: Key, revised: Spec, order: seq<Key>): Result<State> {
    if k !in s.pending then Raised(MissingKey)
    else
      var item := s.pending[k];
      if revised.terminal.Aborted? then
        if item.decodeStart.None? then Raised(MissingKey)
        else
          var emitted := ElapsedTokens(s.now - item.decodeStart.value, c.cost.decodePerToken);
          if emitted.Raised? then Raised(emitted.error)
          else if !(0 < emitted.value < item.spec.emittedTokens) then Raised(NoPartialProgress)
          else Ok(Complete(Wake(EndLease(s, k, revised, emitted.value), order), k, s.now))
      else if item.finish.None? then Raised(MissingKey)
      else Ok(Complete(s, k, item.finish.value))
  }

  // --- completion -----------------------------------------------------------

  function Settle(s: State, k: Key): State {
    s.(alog := Moved(s.alog, k, Done).(completed := s.alog.completed + [k]))
  }

  /** The node cache after the completion of `item`; untouched when nothing reusable was made. */
  function CacheAfter(c: Config, cache: map<string, set<string>>, item: Pending, m: Mutation)
    : Result<map<string, set<string>>>
  {
    if !item.spec.terminal.Completed? && !item.spec.prefillReusable then Ok(cache)
    else if item.spec.pNode !in cache then Raised(MissingKey)
    else
      var r := Mutated(c, cache[item.spec.pNode], KeysOf(item.request.prefix), m);
      if r.Raised? then Raised(r.error) else Ok(cache[item.spec.pNode := r.value.0])
  }

  function OnCompletion(c: Config, s: State, k: Key, m: Mutation, retry: Option<Spec>): Result<State> {
    if k !in s.pending then Raised(MissingKey)
    else
      var item := s.pending[k];
      var cache := CacheAfter(c, s.cache, item, m);
      if cache.Raised? then Raised(cache.error)
      else
        var t := Settle(s, k).(cache := cache.value);
        if item.spec.terminal.Completed? || retry.None? then Ok(t)
        else if item.spec.index >= c.retryBudget then Raised(RetryBudgetExhausted)
        else
          var refusal := ValidatePlan(c, item.request, retry.value, s.issued);
          if refusal.Some? then Raised(refusal.value)
          else Ok(Issue(t, item.request, retry.value, Max(s.now, retry.value.arrivalWork), RetrySlot(c, k, s.now)))
  }

  // --- one step -------------------------------------------------------------

  function Pop(s: State, e: Event): State {
    s.(now := e.at, queue := s.queue - {e})
  }

  function Handle(c: Config, s: State, e: Event, a: Answers): Result<State> {
    if e.payload.Arrives? then OnArrival(c, s, e.payload.request, a.plans)
    else
      var k := e.payload.key;
      match e.kind
      case AttemptReady => OnReady(c, s, k)
      case PrefillStart => OnPrefillStart(c, s, k)
      case PrefillFinish => OnPrefillFinish(c, s, k, a.fence, a.leaseTokens)
      case DecodeStart => OnDecodeStart(c, s, k, a.fence, a.leaseTokens)
      case LeaseBoundary => OnLeaseBoundary(c, s, k, a.revised, a.wakeOrder)
      case Completion => OnCompletion(c, s, k, a.mutation, a.retry)
      case Arrival => Ok(s)
  }

  /** Handle the next event `e`. */
  function Step(c: Config, s: State, e: Event, a: Answers): Result<State> {
    Handle(c, Pop(s, e), e, a)
  }

  // --- the start ------------------------------------------------------------

  /** What the kernel checks of a workload before it starts. */
  ghost predicate AcceptedWorkload(c: Config, workload: seq<Request>) {
    && (forall i :: 0 <= i < |workload| ==>
          workload[i].tier in c.tiers && c.observationStart <= workload[i].arrivalWork < c.observationEnd)
    && (forall i, j :: 0 <= i < j < |workload| ==>
          workload[i].id != workload[j].id && workload[i].arrivalWork <= workload[j].arrivalWork)
  }

  ghost predicate ValidWorkload(c: Config, workload: seq<Request>) {
    AcceptedWorkload(c, workload) && forall i :: 0 <= i < |workload| ==> ValidRequest(workload[i])
  }

  function ArrivalEvent(workload: seq<Request>, i: nat): Event
    requires i < |workload|
  {
    Event(workload[i].arrivalWork, Arrival, i, Arrives(workload[i]))
  }

  /** Every slot of the workload: one initial attempt, one retry per spent index, and overtime. */
  function Slots(c: Config, workload: seq<Request>): set<(string, int)> {
    set i, j | 0 <= i < |workload| && -1 <= j < OvertimeSlot(c, c.observationStart) :: (workload[i].id, j)
  }

  function Initial(c: Config, workload: seq<Request>): State {
    State(
      c.observationStart,
      set i | 0 <= i < |workload| :: ArrivalEvent(workload, i),
      |workload|,
      map[], map[], {},
      map n | n in c.prefillNodes :: PNode(c.observationStart, false, [], 0.0, None, [], []),
      map n | n in c.decodeNodes :: DNode(c.observationStart, []),
      map n | n in c.prefillNodes :: {},
      AttemptLog(map[], map[], map[], map[], map[], map x | x in Slots(c, workload) :: UNISSUED, []))
  }
}
