/** What every step of the kernel keeps (src/prefill_cache_sim/m12_kernel.py:511-886). */
module KernelSafety {
  import opened Options
  import opened Lists
  import opened KernelModel
  import opened KernelSteps

  // --- the event queue and the stages ---------------------------------------

  /** No event lies in the past, and serials are unique. */
  ghost predicate Timely(now: real, queue: set<Event>, serial: nat) {
    && (forall e :: e in queue ==> now <= e.at && e.serial < serial)
    && (forall e, f :: e in queue && f in queue && e.serial == f.serial ==> e == f)
  }

  predicate HasEvent(st: Stage) { !st.Waiting? && !st.Prefilled? && !st.Done? }

  function KindOf(st: Stage): Kind
    requires HasEvent(st)
  {
    match st
    case Planned(_) => AttemptReady
    case Scheduled(_) => PrefillStart
    case Prefilling(_) => PrefillFinish
    case Gated(_) => DecodeStart
    case Leased(_) => LeaseBoundary
    case Completing(_) => Completion
  }

  predicate OnPrefillSide(st: Stage) { st.Waiting? || st.Scheduled? || st.Prefilling? }

  predicate HasRun(st: Stage) { !st.Planned? && !st.Waiting? && !st.Scheduled? }

  predicate Started(st: Stage) { st.Leased? || st.Completing? || st.Done? }

  predicate Late(st: Stage) { st.Gated? || Started(st) }

  predicate EventFits(e: Event, st: Stage) {
    if e.kind.DecodeStart? then Late(st) else HasEvent(st) && st.event == e && KindOf(st) == e.kind
  }

  predicate Owned(queue: set<Event>, k: Key, st: Stage) {
    && !st.Prefilled?
    && (HasEvent(st) ==> st.event in queue && st.event.payload == Concerns(k) && st.event.kind == KindOf(st))
  }

  /** Every attempt has exactly the event its stage calls for, besides duplicate
      DECODE_START events; attempts in `loose` are between two stages. */
  ghost predicate Staged(queue: set<Event>, stage: map<Key, Stage>, loose: set<Key>) {
    && (forall e :: e in queue ==> (e.payload.Arrives? <==> e.kind.Arrival?))
    && (forall e :: e in queue && e.payload.Concerns? ==>
          && e.payload.key in stage
          && (if e.payload.key in loose then e.kind.DecodeStart? && Late(stage[e.payload.key])
              else EventFits(e, stage[e.payload.key])))
    && (forall k :: k in stage && k !in loose ==> Owned(queue, k, stage[k]))
  }

  lemma PopLoosens(queue: set<Event>, stage: map<Key, Stage>, e: Event)
    requires Staged(queue, stage, {}) && e in queue && e.payload.Concerns?
    requires e.kind.DecodeStart? ==> stage[e.payload.key].Gated?
    ensures Staged(queue - {e}, stage, {e.payload.key})
  {
  }

  lemma PopDuplicate(queue: set<Event>, stage: map<Key, Stage>, e: Event)
    requires Staged(queue, stage, {}) && e in queue
    requires e.payload.Concerns? ==> e.kind.DecodeStart? && Started(stage[e.payload.key])
    ensures Staged(queue - {e}, stage, {})
  {
  }

  lemma Loosen(queue: set<Event>, stage: map<Key, Stage>, loose: set<Key>, k: Key)
    requires Staged(queue, stage, loose) && k in stage && stage[k].Waiting?
    ensures Staged(queue, stage, loose + {k})
  {
  }

  /** A loose or new attempt enters a stage with a fresh event. */
  lemma Enter(queue: set<Event>, stage: map<Key, Stage>, loose: set<Key>, k: Key, st: Stage)
    requires Staged(queue, stage, loose) && (k in stage ==> k in loose)
    requires HasEvent(st) && st.event.payload == Concerns(k) && st.event.kind == KindOf(st)
    requires k in stage && Late(stage[k]) ==> Late(st)
    requires st.event !in queue
    ensures Staged(queue + {st.event}, stage[k := st], loose - {k})
  {
  }

  /** ... or one without an event. */
  lemma Rest(queue: set<Event>, stage: map<Key, Stage>, loose: set<Key>, k: Key, st: Stage)
    requires Staged(queue, stage, loose) && k in stage && k in loose
    requires !HasEvent(st) && !st.Prefilled? && (Late(stage[k]) ==> Late(st))
    requires forall e :: e in queue && e.payload == Concerns(k) ==> Late(st)
    ensures Staged(queue, stage[k := st], loose - {k})
  {
  }

  /** Duplicate wake-ups are harmless. */
  lemma Duplicate(queue: set<Event>, stage: map<Key, Stage>, loose: set<Key>, e: Event)
    requires Staged(queue, stage, loose) && e.kind.DecodeStart? && e.payload.Concerns?
    requires e.payload.key in stage && Late(stage[e.payload.key])
    ensures Staged(queue + {e}, stage, loose)
  {
  }

  lemma PopKeepsTime(now: real, queue: set<Event>, serial: nat, e: Event)
    requires Timely(now, queue, serial) && e in queue && IsNext(queue, e)
    ensures now <= e.at && Timely(e.at, queue - {e}, serial)
  {
    forall f | f in queue ensures e.at <= f.at {
      assert !Before(f, e);
    }
  }

  lemma Pushed(now: real, queue: set<Event>, serial: nat, e: Event)
    requires Timely(now, queue, serial) && e.serial == serial && now <= e.at
    ensures Timely(now, queue + {e}, serial + 1) && e !in queue
  {
  }

  // --- the attempts' records ------------------------------------------------

  /** Work as the kernel accepts it: it belongs to its key and to nodes that exist. */
  ghost predicate PlanFits(c: Config, w: map<string, Request>, k: Key, plan: Spec) {
    && (plan.id, plan.index) == k && k.0 in w
    && plan.pNode in c.prefillNodes && plan.dNode in c.decodeNodes
  }

  /** An abort has cut the attempt short, at least one token into its output. */
  predicate CutOff(c: Config, item: Pending) {
    && item.spec.terminal.Aborted? && c.cost.decodePerToken > 0.0
    && item.decodeStart.Some? && item.finish.Some?
    && item.decodeStart.value + c.cost.decodePerToken <= item.finish.value
  }

  /** A record belongs to its key and its request, and says what was issued unless an abort
      has revised it. */
  ghost predicate ItemFits(c: Config, w: map<string, Request>, k: Key, item: Pending) {
    && PlanFits(c, w, k, item.plan) && item.request == w[k.0]
    && (item.spec == item.plan || CutOff(c, item))
  }

  predicate Ended(st: Stage) { st.Completing? || st.Done? }

  /** The three tables of a run, by the stages of the attempts. */
  ghost predicate Tabled(c: Config, w: map<string, Request>, planned: map<Key, Pending>, pending: map<Key, Pending>,
                         issued: set<Key>, stage: map<Key, Stage>) {
    && issued == stage.Keys
    && (forall k :: k in planned <==> k in stage && stage[k].Planned?)
    && (forall k :: k in pending <==> k in stage && !stage[k].Planned?)
    && (forall k :: k in planned ==>
          ItemFits(c, w, k, planned[k]) && planned[k] == NewPending(planned[k].request, planned[k].spec))
    && (forall k :: k in pending ==> ItemFits(c, w, k, pending[k]))
    && (forall k :: k in pending && !Ended(stage[k]) ==> pending[k].spec == pending[k].plan)
  }

  // --- the P nodes ----------------------------------------------------------

  function EntryKeys(q: seq<Entry>): (ks: seq<Key>)
    ensures |ks| == |q| && forall i :: 0 <= i < |q| ==> ks[i] == q[i].key
  {
    seq(|q|, i requires 0 <= i < |q| => q[i].key)
  }

  function SpanKeys(spans: seq<Span>): (ks: seq<Key>)
    ensures |ks| == |spans| && forall i :: 0 <= i < |spans| ==> ks[i] == spans[i].key
  {
    seq(|spans|, i requires 0 <= i < |spans| => spans[i].key)
  }

  /** Maximum prefill work of a list of attempts. */
  function WorkOf(c: Config, w: map<string, Request>, ks: seq<Key>): real {
    if ks == [] then 0.0
    else (if ks[0].0 in w then MaximumPrefillWork(c, w[ks[0].0]) else 0.0) + WorkOf(c, w, ks[1..])
  }

  /** The attempt that holds a node without having started. */
  function Unstarted(stage: map<Key, Stage>, v: PNode): seq<Key> {
    if v.holder.Some? && v.holder.value in stage && stage[v.holder.value].Scheduled? then [v.holder.value] else []
  }

  /** Uses of one node follow each other, and none outlasts `until`. */
  ghost predicate Disjoint(spans: seq<Span>, until: real) {
    && (forall i :: 0 <= i < |spans| ==> spans[i].start <= spans[i].finish <= until)
    && (forall i, j :: 0 <= i < j < |spans| ==> spans[i].finish <= spans[j].start)
  }

  /** The waiting heap is a queue: its entries lie in pop order. */
  ghost predicate InOrder(q: seq<Entry>, now: real, bound: nat) {
    && (forall i, j :: 0 <= i < j < |q| ==> EntryBefore(q[i], q[j]))
    && (forall i :: 0 <= i < |q| ==> q[i].at <= now && q[i].serial < bound)
  }

  /** Attempt `k` is in stage `st` and it was issued for P node `n`. */
  predicate At(stage: map<Key, Stage>, pending: map<Key, Pending>, k: Key, n: string) {
    k in stage && k in pending && pending[k].plan.pNode == n
  }

  /** The node is taken exactly while one attempt is scheduled or running there. */
  ghost predicate Held(stage: map<Key, Stage>, pending: map<Key, Pending>, now: real, n: string, v: PNode) {
    && v.busy == v.holder.Some?
    && (v.holder.Some? ==>
          && At(stage, pending, v.holder.value, n)
          && (stage[v.holder.value].Scheduled? || stage[v.holder.value].Prefilling?))
    && (if v.holder.Some? && stage[v.holder.value].Prefilling? then stage[v.holder.value].event.at == v.available
        else v.available <= now)
  }

  ghost predicate Queued(stage: map<Key, Stage>, pending: map<Key, Pending>, n: string, q: seq<Entry>) {
    forall i :: 0 <= i < |q| ==> At(stage, pending, q[i].key, n) && stage[q[i].key].Waiting?
  }

  lemma {:induction false} NoRepeatsAround(a: seq<Key>, k: Key, b: seq<Key>)
    requires NoRepeats(a + [k] + b)
    ensures k !in a && k !in b
  {
    NoRepeatsConcat(a + [k], b);
    NoRepeatsConcat(a, [k]);
    assert k in Elements([k]);
  }

  /** Attempts run on a node in the order they became ready for it. */
  ghost predicate Ordered(stage: map<Key, Stage>, v: PNode) {
    && v.ready == SpanKeys(v.ran) + Unstarted(stage, v) + EntryKeys(v.waiting)
    && NoRepeats(v.ready)
    && (forall k :: k in v.ready ==> k in stage && !stage[k].Planned?)
  }

  /** The queue proxy is the maximum work of everything not yet started. */
  ghost predicate Proxied(c: Config, w: map<string, Request>, stage: map<Key, Stage>, v: PNode) {
    v.queuedWork == WorkOf(c, w, Unstarted(stage, v) + EntryKeys(v.waiting))
  }

  /** Prefills of one node never overlap, and are those the records tell. */
  ghost predicate Ran(stage: map<Key, Stage>, pending: map<Key, Pending>, v: PNode) {
    && Disjoint(v.ran, v.available)
    && (forall i :: 0 <= i < |v.ran| ==>
          && v.ran[i].key in stage && HasRun(stage[v.ran[i].key]) && v.ran[i].key in pending
          && pending[v.ran[i].key].prefillStart == Some(v.ran[i].start)
          && pending[v.ran[i].key].prefillFinish == Some(v.ran[i].finish))
  }

  /** Attempts are listed as ready in the order of their ready times. */
  ghost predicate ReadyInTime(pending: map<Key, Pending>, now: real, v: PNode) {
    && (forall k :: k in v.ready ==> k in pending && pending[k].attemptReady.Some? && pending[k].attemptReady.value <= now)
    && (forall i, j :: 0 <= i < j < |v.ready| ==>
          pending[v.ready[i]].attemptReady.value <= pending[v.ready[j]].attemptReady.value)
  }

  ghost predicate NodeSafe(c: Config, w: map<string, Request>, stage: map<Key, Stage>, pending: map<Key, Pending>,
                           now: real, n: string, v: PNode, bound: nat) {
    && InOrder(v.waiting, now, bound) && Queued(stage, pending, n, v.waiting)
    && Held(stage, pending, now, n, v)
    && Ordered(stage, v) && Proxied(c, w, stage, v) && Ran(stage, pending, v) && ReadyInTime(pending, now, v)
  }

  /** No node idles while attempts wait for it. */
  predicate NoIdle(v: PNode) { !v.busy ==> v.waiting == [] }

  lemma {:induction false} WorkConcat(c: Config, w: map<string, Request>, a: seq<Key>, b: seq<Key>)
    ensures WorkOf(c, w, a + b) == WorkOf(c, w, a) + WorkOf(c, w, b)
  {
    if a == [] {
      assert a + b == b;
    } else {
      assert (a + b)[1..] == a[1..] + b;
      WorkConcat(c, w, a[1..], b);
    }
  }

  lemma {:induction false} WorkOfMore(c: Config, w: map<string, Request>, ks: seq<Key>, k: Key)
    requires k.0 in w
    ensures WorkOf(c, w, ks + [k]) == WorkOf(c, w, ks) + MaximumPrefillWork(c, w[k.0])
  {
    WorkConcat(c, w, ks, [k]);
    assert WorkOf(c, w, [k]) == MaximumPrefillWork(c, w[k.0]);
  }

  lemma {:induction false} QueueWorkIs(c: Config, w: map<string, Request>, pending: map<Key, Pending>, q: seq<Entry>)
    requires forall i :: 0 <= i < |q| ==> q[i].key in pending && q[i].key.0 in w
                                          && pending[q[i].key].request == w[q[i].key.0]
    ensures QueueWork(c, pending, q) == WorkOf(c, w, EntryKeys(q))
  {
    if q != [] {
      assert EntryKeys(q)[1..] == EntryKeys(q[1..]);
      QueueWorkIs(c, w, pending, q[1..]);
    }
  }

  /** In a queue in pop order the heap pops the front: FIFO. */
  lemma {:induction false} FirstIsLeast(q: seq<Entry>, now: real, bound: nat)
    requires InOrder(q, now, bound) && q != []
    ensures LeastIndex(q) == 0
  {
  }

  predicate SamePrefill(a: Pending, b: Pending) {
    b.attemptReady == a.attemptReady && b.prefillStart == a.prefillStart && b.prefillFinish == a.prefillFinish
  }

  /** Attempt by attempt, nothing the P side looks at has changed. */
  ghost predicate SameOnPrefillSide(stage: map<Key, Stage>, pending: map<Key, Pending>,
                                    stage': map<Key, Stage>, pending': map<Key, Pending>) {
    && (forall k :: k in stage ==>
          && k in stage'
          && (OnPrefillSide(stage[k]) ==> stage'[k] == stage[k])
          && (stage'[k].Planned? ==> stage[k].Planned?)
          && (HasRun(stage[k]) ==> HasRun(stage'[k])))
    && (forall k :: k in pending ==>
          && k in pending'
          && SamePrefill(pending[k], pending'[k]) && pending'[k].plan == pending[k].plan)
  }

  lemma ReadyFrame(pending: map<Key, Pending>, pending': map<Key, Pending>, now: real, now': real, v: PNode, v': PNode)
    requires ReadyInTime(pending, now, v) && now <= now' && v'.ready == v.ready
    requires forall k :: k in pending ==> k in pending' && pending'[k].attemptReady == pending[k].attemptReady
    ensures ReadyInTime(pending', now', v')
  {
  }

  lemma NodeFrame(c: Config, w: map<string, Request>, stage: map<Key, Stage>, pending: map<Key, Pending>, now: real,
                  stage': map<Key, Stage>, pending': map<Key, Pending>, now': real, n: string, v: PNode, bound: nat,
                  bound': nat)
    requires NodeSafe(c, w, stage, pending, now, n, v, bound)
    requires SameOnPrefillSide(stage, pending, stage', pending') && now <= now' && bound <= bound'
    ensures NodeSafe(c, w, stage', pending', now', n, v, bound')
  {
    hide ReadyInTime; hide EntryKeys; hide SpanKeys; hide NoRepeats; hide WorkOf; hide EntryBefore;
    ReadyFrame(pending, pending', now, now', v, v);
    assert Held(stage', pending', now', n, v);
    assert Unstarted(stage', v) == Unstarted(stage, v);
  }

  lemma JoinedQueue(stage: map<Key, Stage>, pending: map<Key, Pending>, now: real, n: string, q: seq<Entry>, bound: nat,
                    k: Key)
    requires InOrder(q, now, bound) && Queued(stage, pending, n, q)
    requires At(stage, pending, k, n) && stage[k].Waiting?
    ensures InOrder(q + [Entry(now, bound, k)], now, bound + 1)
    ensures Queued(stage, pending, n, q + [Entry(now, bound, k)])
    ensures EntryKeys(q + [Entry(now, bound, k)]) == EntryKeys(q) + [k]
  {
    hide At;
  }

  /** The new one is last in the order of readiness, and its work joins the proxy. */
  lemma JoinedOrder(c: Config, w: map<string, Request>, stage: map<Key, Stage>, v: PNode, v': PNode, k: Key)
    requires Ordered(stage, v) && Proxied(c, w, stage, v)
    requires k in stage && stage[k].Waiting? && k.0 in w && k !in v.ready
    requires v'.holder == v.holder && v'.ran == v.ran && v'.ready == v.ready + [k]
    requires EntryKeys(v'.waiting) == EntryKeys(v.waiting) + [k]
    requires v'.queuedWork == v.queuedWork + MaximumPrefillWork(c, w[k.0])
    ensures Ordered(stage, v') && Proxied(c, w, stage, v')
  {
    hide NoRepeats; hide EntryKeys; hide SpanKeys; hide WorkOf; hide MaximumPrefillWork;
    var before := Unstarted(stage, v) + EntryKeys(v.waiting);
    assert Unstarted(stage, v') == Unstarted(stage, v);
    assert Unstarted(stage, v') + EntryKeys(v'.waiting) == before + [k];
    WorkOfMore(c, w, before, k);
    NoRepeatsMore(v.ready, k);
  }

  lemma JoinedTimes(pending: map<Key, Pending>, now: real, v: PNode, v': PNode, k: Key)
    requires ReadyInTime(pending, now, v) && v'.ready == v.ready + [k]
    requires k in pending && pending[k].attemptReady == Some(now)
    ensures ReadyInTime(pending, now, v')
  {
  }

  /** A ready attempt joins the end of its node's queue. */
  lemma JoinKeeps(c: Config, w: map<string, Request>, stage: map<Key, Stage>, pending: map<Key, Pending>, now: real,
                  n: string, v: PNode, bound: nat, k: Key)
    requires NodeSafe(c, w, stage, pending, now, n, v, bound)
    requires At(stage, pending, k, n) && stage[k].Waiting? && k.0 in w && k !in v.ready
    requires pending[k].attemptReady == Some(now)
    ensures NodeSafe(c, w, stage, pending, now, n,
                     Joined(v, Entry(now, bound, k), MaximumPrefillWork(c, w[k.0])), bound + 1)
  {
    hide InOrder; hide Queued; hide Ordered; hide Proxied; hide ReadyInTime; hide MaximumPrefillWork; hide EntryKeys;
    hide Disjoint;
    var v' := Joined(v, Entry(now, bound, k), MaximumPrefillWork(c, w[k.0]));
    JoinedQueue(stage, pending, now, n, v.waiting, bound, k);
    JoinedOrder(c, w, stage, v, v', k);
    JoinedTimes(pending, now, v, v', k);
  }

  lemma FrontKey(q: seq<Entry>)
    requires q != []
    ensures EntryKeys(q) == [q[0].key] + EntryKeys(q[1..])
  {
  }

  lemma DispatchedFront(v: PNode, now: real, bound: nat)
    requires InOrder(v.waiting, now, bound) && v.waiting != []
    ensures Dispatched(v) == v.(busy := true, waiting := v.waiting[1..], holder := Some(v.waiting[0].key))
    ensures EntryKeys(v.waiting) == [v.waiting[0].key] + EntryKeys(v.waiting[1..])
  {
    hide LeastIndex; hide InOrder; hide EntryKeys;
    FirstIsLeast(v.waiting, now, bound);
    FrontKey(v.waiting);
    assert v.waiting[..0] + v.waiting[1..] == v.waiting[1..];
  }

  lemma DispatchOrder(stage: map<Key, Stage>, v: PNode, v': PNode, e: Event)
    requires Ordered(stage, v) && v.holder.None? && v.waiting != []
    requires v' == v.(busy := true, waiting := v.waiting[1..], holder := Some(v.waiting[0].key))
    requires EntryKeys(v.waiting) == [v.waiting[0].key] + EntryKeys(v'.waiting)
    ensures var k := v.waiting[0].key;
            && Ordered(stage[k := Scheduled(e)], v')
            && k !in EntryKeys(v'.waiting)
            && Unstarted(stage[k := Scheduled(e)], v') + EntryKeys(v'.waiting)
               == Unstarted(stage, v) + EntryKeys(v.waiting)
  {
    hide NoRepeats; hide EntryKeys; hide SpanKeys;
    var k, ran, rest := v.waiting[0].key, SpanKeys(v.ran), EntryKeys(v'.waiting);
    assert v.ready == ran + [k] + rest;
    NoRepeatsAround(ran, k, rest);
  }

  lemma TailQueued(stage: map<Key, Stage>, pending: map<Key, Pending>, now: real, n: string, q: seq<Entry>,
                   bound: nat, k: Key, e: Event)
    requires InOrder(q, now, bound) && Queued(stage, pending, n, q) && q != [] && k !in EntryKeys(q[1..])
    ensures InOrder(q[1..], now, bound) && Queued(stage[k := Scheduled(e)], pending, n, q[1..])
  {
    hide EntryKeys; hide EntryBefore;
    var tail := q[1..];
    assert forall i :: 0 <= i < |tail| ==> tail[i] == q[i + 1] && EntryKeys(tail)[i] == tail[i].key;
  }

  /** The front of the queue takes a free node. */
  lemma DispatchKeeps(c: Config, w: map<string, Request>, stage: map<Key, Stage>, pending: map<Key, Pending>, now: real,
                      n: string, v: PNode, bound: nat, e: Event)
    requires NodeSafe(c, w, stage, pending, now, n, v, bound) && !v.busy && v.waiting != []
    ensures var k := v.waiting[0].key;
            NodeSafe(c, w, stage[k := Scheduled(e)], pending, now, n, Dispatched(v), bound)
  {
    hide Ordered; hide Unstarted; hide Dispatched; hide EntryKeys; hide WorkOf; hide InOrder; hide EntryBefore;
    DispatchedFront(v, now, bound);
    var v' := Dispatched(v);
    DispatchOrder(stage, v, v', e);
    assert stage[v.waiting[0].key].Waiting?;
    TailQueued(stage, pending, now, n, v.waiting, bound, v.waiting[0].key, e);
    assert Held(stage[v.waiting[0].key := Scheduled(e)], pending, now, n, v');
  }

  lemma {:induction false} StartOrder(c: Config, w: map<string, Request>, stage: map<Key, Stage>, v: PNode, v': PNode,
                                      k: Key, e: Event)
    requires Ordered(stage, v) && v.holder == Some(k) && k in stage && stage[k].Scheduled?
    requires SpanKeys(v'.ran) == SpanKeys(v.ran) + [k] && v'.waiting == v.waiting && v'.ready == v.ready
    requires v'.holder == v.holder && v'.queuedWork == WorkOf(c, w, EntryKeys(v.waiting))
    ensures Ordered(stage[k := Prefilling(e)], v') && Proxied(c, w, stage[k := Prefilling(e)], v')
  {
    hide NoRepeats; hide EntryKeys; hide SpanKeys; hide WorkOf;
    var stage' := stage[k := Prefilling(e)];
    assert Unstarted(stage, v) == [k] && Unstarted(stage', v') == [];
    assert Unstarted(stage', v') + EntryKeys(v'.waiting) == EntryKeys(v.waiting);
  }

  lemma StartRan(stage: map<Key, Stage>, pending: map<Key, Pending>, v: PNode, k: Key, item: Pending, start: real, e: Event)
    requires Ran(stage, pending, v) && k in stage && !HasRun(stage[k]) && v.available <= start <= e.at
    requires item.prefillStart == Some(start) && item.prefillFinish == Some(e.at)
    ensures Ran(stage[k := Prefilling(e)], pending[k := item],
                v.(available := e.at, ran := v.ran + [Span(k, start, e.at)]))
  {
  }

  /** The holder starts: it leaves the proxy and runs after everything before it. */
  lemma {:induction false} StartKeeps(c: Config, w: map<string, Request>, stage: map<Key, Stage>,
                                      pending: map<Key, Pending>, now: real, n: string, v: PNode, bound: nat,
                                      item: Pending, e: Event)
    requires NodeSafe(c, w, stage, pending, now, n, v, bound)
    requires v.holder.Some? && stage[v.holder.value].Scheduled?
    requires item.plan == pending[v.holder.value].plan && item.prefillStart == Some(now)
    requires item.attemptReady == pending[v.holder.value].attemptReady
    requires item.prefillFinish == Some(e.at) && now <= e.at
    ensures var k := v.holder.value;
            NodeSafe(c, w, stage[k := Prefilling(e)], pending[k := item], now, n,
                     Running(v, k, now, e.at, WorkOf(c, w, EntryKeys(v.waiting))), bound)
  {
    hide EntryKeys; hide SpanKeys; hide InOrder; hide WorkOf; hide ReadyInTime; hide Ordered; hide Proxied; hide Disjoint;
    var k := v.holder.value;
    var v' := Running(v, k, now, e.at, WorkOf(c, w, EntryKeys(v.waiting)));
    ReadyFrame(pending, pending[k := item], now, now, v, v');
    StartRan(stage, pending, v, k, item, now, e);
    assert SpanKeys(v'.ran) == SpanKeys(v.ran) + [k];
    StartOrder(c, w, stage, v, v', k, e);
  }

  /** The holder leaves the P side. */
  lemma FreeKeeps(c: Config, w: map<string, Request>, stage: map<Key, Stage>, pending: map<Key, Pending>, now: real,
                  n: string, v: PNode, bound: nat, st: Stage)
    requires NodeSafe(c, w, stage, pending, now, n, v, bound)
    requires v.holder.Some? && stage[v.holder.value].Prefilling? && v.available <= now
    requires !OnPrefillSide(st) && !st.Planned?
    ensures NodeSafe(c, w, stage[v.holder.value := st], pending, now, n, Freed(v), bound)
  {
    var stage', v' := stage[v.holder.value := st], Freed(v);
    assert Unstarted(stage, v) == [] && Unstarted(stage', v') == [];
  }

  // --- the D nodes ----------------------------------------------------------

  /** A booking covers the decode of the attempt it was made for; it is longer than that only when
      an abort has named another node. */
  ghost predicate BookedAs(stage: map<Key, Stage>, pending: map<Key, Pending>, position: map<Key, nat>, now: real,
                           n: string, span: Span, i: nat) {
    && span.key in stage && Started(stage[span.key])
    && span.key in pending && pending[span.key].plan.dNode == n
    && pending[span.key].decodeStart == Some(span.start)
    && pending[span.key].finish.Some? && pending[span.key].finish.value <= span.finish
    && (pending[span.key].spec.dNode == n ==> pending[span.key].finish.value == span.finish)
    && span.key in position && position[span.key] == i
    && span.start <= now
  }

  ghost predicate Booked(stage: map<Key, Stage>, pending: map<Key, Pending>, position: map<Key, nat>, now: real,
                         n: string, v: DNode) {
    forall i :: 0 <= i < |v.booked| ==> BookedAs(stage, pending, position, now, n, v.booked[i], i)
  }

  /** A lease boundary lies a positive number of whole tokens into the output. */
  ghost predicate LeaseAligned(c: Config, item: Pending, at: real) {
    && item.decodeStart.Some?
    && item.finish == Some(item.decodeStart.value + DecodeWork(c, item.spec.emittedTokens))
    && exists lease: int :: 0 < lease < item.spec.emittedTokens
                            && at == item.decodeStart.value + DecodeWork(c, lease)
  }

  /** An attempt has decoded exactly when it has started, under one booking. */
  ghost predicate Decoding(c: Config, st: Stage, item: Pending, position: map<Key, nat>, dNodes: map<string, DNode>,
                           k: Key) {
    && (Started(st) <==> item.decodeStart.Some?)
    && (Started(st) ==>
          && item.finish.Some? && item.plan.dNode in dNodes && k in position
          && position[k] < |dNodes[item.plan.dNode].booked|
          && dNodes[item.plan.dNode].booked[position[k]].key == k)
    && (st.Completing? ==> item.finish == Some(st.event.at))
    && (st.Leased? ==> LeaseAligned(c, item, st.event.at))
  }

  /** Attempt by attempt, nothing the D side looks at has changed. */
  ghost predicate SameOnDecodeSide(stage: map<Key, Stage>, pending: map<Key, Pending>, position: map<Key, nat>,
                                   stage': map<Key, Stage>, pending': map<Key, Pending>, position': map<Key, nat>) {
    forall k :: k in stage && Started(stage[k]) && k in pending ==>
      && k in stage' && Started(stage'[k]) && k in pending'
      && pending'[k].plan.dNode == pending[k].plan.dNode && pending'[k].spec.dNode == pending[k].spec.dNode
      && pending'[k].decodeStart == pending[k].decodeStart && pending'[k].finish == pending[k].finish
      && (k in position ==> k in position' && position'[k] == position[k])
  }

  lemma BookedFrame(stage: map<Key, Stage>, pending: map<Key, Pending>, position: map<Key, nat>, now: real,
                    stage': map<Key, Stage>, pending': map<Key, Pending>, position': map<Key, nat>, now': real,
                    n: string, v: DNode)
    requires Booked(stage, pending, position, now, n, v) && now <= now'
    requires SameOnDecodeSide(stage, pending, position, stage', pending', position')
    ensures Booked(stage', pending', position', now', n, v)
  {
  }

  lemma BookKeeps(stage: map<Key, Stage>, pending: map<Key, Pending>, position: map<Key, nat>, now: real,
                  n: string, v: DNode, k: Key, finish: real)
    requires Booked(stage, pending, position, now, n, v)
    requires BookedAs(stage, pending, position, now, n, Span(k, now, finish), |v.booked|)
    ensures Booked(stage, pending, position, now, n, DNode(finish, v.booked + [Span(k, now, finish)]))
  {
  }

  /** Cutting `k` short at `now` keeps every booking that is there, whichever node is cut. */
  lemma CutKeeps(stage: map<Key, Stage>, pending: map<Key, Pending>, position: map<Key, nat>, now: real,
                 n: string, v: DNode, k: Key, item: Pending)
    requires Booked(stage, pending, position, now, n, v) && k in pending
    requires pending[k].finish.Some? && pending[k].finish.value > now
    requires item.plan == pending[k].plan && item.decodeStart == pending[k].decodeStart && item.finish == Some(now)
    ensures Booked(stage, pending[k := item], position, now, n,
                   if item.spec.dNode == n then CutShort(v, k, now) else v)
  {
    hide CutShort;
    var pending', v' := pending[k := item], if item.spec.dNode == n then CutShort(v, k, now) else v;
    forall i | 0 <= i < |v.booked| ensures BookedAs(stage, pending', position, now, n, v'.booked[i], i) {
      assert BookedAs(stage, pending, position, now, n, v.booked[i], i);
    }
  }

  // --- D nodes that are never booked twice ----------------------------------

  /** Bookings of the node never overlap, and it is booked until the last one ends. */
  ghost predicate Apart(now: real, v: DNode) {
    && Disjoint(v.booked, v.available)
    && (v.available > now ==> v.booked != [] && v.booked[|v.booked| - 1].finish == v.available)
  }

  lemma DecodeWorkGrows(c: Config, lo: nat, hi: nat)
    requires c.cost.decodePerToken > 0.0 && lo < hi
    ensures DecodeWork(c, lo) < DecodeWork(c, hi)
  {
    ScaledBelow(lo, hi, c.cost.decodePerToken);
  }

  lemma ElapsedLease(c: Config, lease: nat)
    requires c.cost.decodePerToken > 0.0
    ensures DecodeWork(c, 0) == 0.0 && ElapsedTokens(DecodeWork(c, lease), c.cost.decodePerToken) == Ok(lease)
  {
    hide ElapsedTokens;
    ElapsedExactly(lease, c.cost.decodePerToken);
  }

  lemma OneTokenOfWork(c: Config)
    ensures DecodeWork(c, 1) == c.cost.decodePerToken
  {
  }

  /** At a lease boundary the abort is always token aligned and strictly partial. */
  lemma LeaseEndsEarly(c: Config, item: Pending, at: real)
    requires LeaseAligned(c, item, at) && c.cost.decodePerToken > 0.0
    ensures item.decodeStart.value + c.cost.decodePerToken <= at < item.finish.value
    ensures var emitted := ElapsedTokens(at - item.decodeStart.value, c.cost.decodePerToken);
            emitted.Ok? && 0 < emitted.value < item.spec.emittedTokens
  {
    hide ElapsedTokens; hide DecodeWork;
    var lease: int :| 0 < lease < item.spec.emittedTokens && at == item.decodeStart.value + DecodeWork(c, lease);
    DecodeWorkGrows(c, lease, item.spec.emittedTokens);
    assert DecodeWork(c, 1) <= DecodeWork(c, lease) by { if lease > 1 { DecodeWorkGrows(c, 1, lease); } }
    OneTokenOfWork(c);
    ElapsedLease(c, lease);
    assert at - item.decodeStart.value == DecodeWork(c, lease);
  }

  // --- delays before the horizon --------------------------------------------

  lemma Divided(x: real, y: real, d: real)
    requires d > 0.0 && x <= y
    ensures x / d <= y / d
  {
    var p, q := x / d, y / d;
    assert p * d == x && q * d == y;
    if p > q { Larger(p, q, d); }
  }

  lemma Larger(p: real, q: real, d: real)
    requires d > 0.0 && p > q
    ensures p * d > q * d
  {
    assert (p - q) * d > 0.0;
  }

  lemma OneLess(x: real, d: real)
    requires d > 0.0
    ensures (x - d) / d == x / d - 1.0
  {
    var p, q := x / d, (x - d) / d;
    assert p * d == x && q * d == x - d;
    assert (q + 1.0) * d == x;
    if p > q + 1.0 { Larger(p, q + 1.0, d); }
    if p < q + 1.0 { Larger(q + 1.0, p, d); }
  }

  /** A delay of at least `delta` uses one up. */
  lemma DelayCosts(horizon: real, delta: real, at: real, later: real)
    requires delta > 0.0 && at <= horizon && later >= at + delta
    ensures DelaysLeft(horizon, delta, later) < DelaysLeft(horizon, delta, at)
  {
    Divided(0.0, horizon - at, delta);
    if later <= horizon {
      Divided(horizon - later, horizon - at - delta, delta);
      OneLess(horizon - at, delta);
    }
  }

  lemma DelaysRunOut(horizon: real, delta: real, at: real, later: real)
    requires delta > 0.0 && at <= later
    ensures DelaysLeft(horizon, delta, later) <= DelaysLeft(horizon, delta, at)
  {
    if at <= horizon { Divided(0.0, horizon - at, delta); }
    if later <= horizon { Divided(horizon - later, horizon - at, delta); }
  }

  lemma OvertimeRunsOut(c: Config, at: real, later: real)
    requires at <= later
    ensures c.retryBudget <= OvertimeSlot(c, later) <= OvertimeSlot(c, at)
    ensures c.cost.decodePerToken > 0.0 && at <= c.observationEnd && at + c.cost.decodePerToken <= later ==>
              OvertimeSlot(c, later) < OvertimeSlot(c, at)
  {
    hide DelaysLeft;
    if c.cost.decodePerToken > 0.0 {
      DelaysRunOut(c.observationEnd, c.cost.decodePerToken, at, later);
      if at <= c.observationEnd && at + c.cost.decodePerToken <= later {
        DelayCosts(c.observationEnd, c.cost.decodePerToken, at, later);
      }
    }
  }
}
