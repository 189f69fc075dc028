/** What safety means for the attempts of a run: disjoint node uses, first come first
    served, no idle node, one decode and one completion each, bounded retries. */
module KernelResults {
  import opened Lists
  import opened Options
  import opened KernelModel
  import opened KernelSteps
  import opened KernelSafety
  import opened KernelInvariant
  import opened KernelHandlers
  import opened KernelRuns

  /** Two attempts issued for the same D node never decode at the same time, including after an
      abort has cut a booking short. */
  lemma DecodesNeverOverlap(c: Config, w: map<string, Request>, s: State, j: Key, k: Key)
    requires Safe(c, w, s) && NodesApart(s) && j in s.pending && k in s.pending && j != k
    requires s.pending[j].plan.dNode == s.pending[k].plan.dNode
    requires s.pending[j].decodeStart.Some? && s.pending[k].decodeStart.Some?
    ensures s.pending[j].finish.Some? && s.pending[k].finish.Some?
    ensures || s.pending[j].finish.value <= s.pending[k].decodeStart.value
            || s.pending[k].finish.value <= s.pending[j].decodeStart.value
  {
    hide PrefillPool; hide Staged; hide Slotted; hide Timed; hide Arriving; hide Finished; hide Timely; hide LeaseAligned;
    hide ItemFits; hide NoIdle; hide BookedAs; hide Disjoint;
    var n := s.pending[k].plan.dNode;
    assert Decoding(c, s.alog.stage[j], s.pending[j], s.alog.position, s.dNodes, j);
    assert Decoding(c, s.alog.stage[k], s.pending[k], s.alog.position, s.dNodes, k);
    var v, x, y := s.dNodes[n], s.alog.position[j], s.alog.position[k];
    assert Booked(s.alog.stage, s.pending, s.alog.position, s.now, n, v) && Apart(s.now, v);
    SpansApart(v.booked, v.available, x, y);
    SpanIs(s.alog.stage, s.pending, s.alog.position, s.now, n, v.booked[x], x);
    SpanIs(s.alog.stage, s.pending, s.alog.position, s.now, n, v.booked[y], y);
  }

  lemma SpanIs(stage: map<Key, Stage>, pending: map<Key, Pending>, position: map<Key, nat>, now: real,
               n: string, span: Span, i: nat)
    requires BookedAs(stage, pending, position, now, n, span, i)
    ensures span.key in pending && pending[span.key].decodeStart == Some(span.start)
    ensures pending[span.key].finish.Some? && pending[span.key].finish.value <= span.finish
    ensures pending[span.key].plan.dNode == n && span.start <= now
    ensures pending[span.key].spec.dNode == n ==> pending[span.key].finish.value == span.finish
  {
  }

  lemma SpansApart(spans: seq<Span>, until: real, x: nat, y: nat)
    requires Disjoint(spans, until) && x < |spans| && y < |spans| && spans[x].key != spans[y].key
    ensures spans[x].finish <= spans[y].start || spans[y].finish <= spans[x].start
  {
  }

  /** The bookings of all D nodes name every attempt that has started decoding exactly once:
      the decode-started hook is called at most once per attempt. */
  lemma DecodesStartOnce(c: Config, w: map<string, Request>, s: State, m: string, n: string, x: nat, y: nat)
    requires Safe(c, w, s) && m in s.dNodes && n in s.dNodes && x < |s.dNodes[m].booked| && y < |s.dNodes[n].booked|
    requires s.dNodes[m].booked[x].key == s.dNodes[n].booked[y].key
    ensures m == n && x == y
  {
    hide PrefillPool; hide Staged; hide Slotted; hide Timed; hide Arriving; hide Finished; hide Timely; hide LeaseAligned; hide Tabled;
    hide NoIdle; hide Decoding;
    BookedMeans(s.alog.stage, s.pending, s.alog.position, s.now, m, s.dNodes[m], x);
    BookedMeans(s.alog.stage, s.pending, s.alog.position, s.now, n, s.dNodes[n], y);
  }

  /** A P node is taken exactly while one attempt is scheduled or running there. */
  lemma BusyMeansOneHolder(c: Config, w: map<string, Request>, s: State, n: string, k: Key)
    requires Safe(c, w, s) && n in s.pNodes && k in s.pending && s.pending[k].plan.pNode == n
    ensures s.pNodes[n].busy <==> s.pNodes[n].holder.Some?
    ensures s.pNodes[n].holder == Some(k) <==> s.alog.stage[k].Scheduled? || s.alog.stage[k].Prefilling?
    ensures !s.pNodes[n].busy ==> s.pending[k].prefillStart.Some?
  {
    hide Staged; hide Slotted; hide Timed; hide Arriving; hide Finished; hide Timely; hide DecodePool; hide Ordered; hide Proxied;
    hide Ran; hide InOrder; hide ReadyInTime; hide ItemFits;
    var v := s.pNodes[n];
    assert NodeSafe(c, w, s.alog.stage, s.pending, s.now, n, v, s.serial);
    assert PlacedAt(s.alog.stage[k], s.pending[k], s.pNodes, k);
    assert NoIdle(v);
    assert v.waiting == [] ==> EntryKeys(v.waiting) == [];
  }

  /** Attempts not yet started on a node, in the order they will start. */
  function Queue(s: State, n: string): seq<Key>
    requires n in s.pNodes
  {
    Unstarted(s.alog.stage, s.pNodes[n]) + EntryKeys(s.pNodes[n].waiting)
  }

  /** The queue proxy a policy sees is the maximum prefill work of exactly the ready,
      unstarted attempts of the node, each counted once. */
  lemma {:induction false} ProxyIsUnstartedWork(c: Config, w: map<string, Request>, s: State, n: string)
    requires Safe(c, w, s) && n in s.pNodes
    ensures s.pNodes[n].queuedWork == WorkOf(c, w, Queue(s, n)) && NoRepeats(Queue(s, n))
    ensures forall k :: k in Queue(s, n) <==>
                          k in s.pending && s.pending[k].plan.pNode == n && s.pending[k].prefillStart.None?
  {
    hide Staged; hide Slotted; hide Timed; hide Arriving; hide Finished; hide Timely; hide DecodePool; hide WorkOf;
    hide Ran; hide InOrder; hide ReadyInTime; hide ItemFits; hide EntryKeys; hide SpanKeys; hide NoIdle; hide NoRepeats;
    hide PlacedAt; hide Held; hide Queued; hide Tabled;
    var v := s.pNodes[n];
    assert NodeSafe(c, w, s.alog.stage, s.pending, s.now, n, v, s.serial);
    assert v.ready == SpanKeys(v.ran) + Queue(s, n);
    NoRepeatsConcat(SpanKeys(v.ran), Queue(s, n));
    forall k ensures k in Queue(s, n) <==> k in s.pending && s.pending[k].plan.pNode == n && s.pending[k].prefillStart.None? {
      QueueMember(c, w, s, n, k);
    }
  }

  lemma QueueMember(c: Config, w: map<string, Request>, s: State, n: string, k: Key)
    requires Safe(c, w, s) && n in s.pNodes
    ensures k in Queue(s, n) <==> k in s.pending && s.pending[k].plan.pNode == n && s.pending[k].prefillStart.None?
  {
    hide Staged; hide Slotted; hide Timed; hide Arriving; hide Finished; hide Timely; hide DecodePool; hide WorkOf; hide Proxied;
    hide Ran; hide InOrder; hide ReadyInTime; hide ItemFits; hide EntryKeys; hide SpanKeys; hide NoIdle; hide Ordered;
    var v := s.pNodes[n];
    assert NodeSafe(c, w, s.alog.stage, s.pending, s.now, n, v, s.serial);
    if k in s.pending {
      assert PlacedAt(s.alog.stage[k], s.pending[k], s.pNodes, k);
    }
  }

  /** First come, first served: an attempt that became ready earlier for the same P node has
      finished its prefill before a later one starts. */
  lemma PrefillsInReadyOrder(c: Config, w: map<string, Request>, s: State, j: Key, k: Key)
    requires Safe(c, w, s) && j in s.pending && k in s.pending && s.pending[j].plan.pNode == s.pending[k].plan.pNode
    requires s.pending[j].attemptReady.Some? && s.pending[k].attemptReady.Some?
    requires s.pending[j].attemptReady.value < s.pending[k].attemptReady.value && s.pending[k].prefillStart.Some?
    ensures s.pending[j].prefillFinish.Some? && s.pending[j].prefillFinish.value <= s.pending[k].prefillStart.value
  {
    hide Staged; hide Slotted; hide Timed; hide Arriving; hide Finished; hide Timely; hide DecodePool; hide WorkOf; hide Proxied;
    hide InOrder; hide ItemFits; hide EntryKeys; hide NoIdle; hide Held; hide Queued; hide Ran; hide Ordered; hide SpanKeys;
    assert PlacedAt(s.alog.stage[k], s.pending[k], s.pNodes, k);
    var n := s.pending[k].plan.pNode;
    var v := s.pNodes[n];
    assert NodeSafe(c, w, s.alog.stage, s.pending, s.now, n, v, s.serial);
    ReadyContains(c, w, s, j);
    var y :| 0 <= y < |v.ran| && SpanKeys(v.ran)[y] == k;
    var x :| 0 <= x < |v.ready| && v.ready[x] == j;
    RanIsReadyPrefix(s.alog.stage, v, y);
    EarlierReadyFirst(s.pending, s.now, v, x, y);
    RanIsReadyPrefix(s.alog.stage, v, x);
    RanApart(s.alog.stage, s.pending, v, x, y);
  }

  lemma RanIsReadyPrefix(stage: map<Key, Stage>, v: PNode, i: nat)
    requires Ordered(stage, v) && i < |v.ran|
    ensures i < |v.ready| && v.ready[i] == v.ran[i].key
  {
    hide NoRepeats;
  }

  lemma EarlierReadyFirst(pending: map<Key, Pending>, now: real, v: PNode, x: nat, y: nat)
    requires ReadyInTime(pending, now, v) && x < |v.ready| && y < |v.ready|
    requires pending[v.ready[x]].attemptReady.value < pending[v.ready[y]].attemptReady.value
    ensures x < y
  {
  }

  lemma RanApart(stage: map<Key, Stage>, pending: map<Key, Pending>, v: PNode, x: nat, y: nat)
    requires Ran(stage, pending, v) && x < y < |v.ran|
    ensures v.ran[x].key in pending && v.ran[y].key in pending
    ensures pending[v.ran[x].key].prefillFinish == Some(v.ran[x].finish)
    ensures pending[v.ran[y].key].prefillStart == Some(v.ran[y].start) && pending[v.ran[y].key].prefillFinish.Some?
    ensures v.ran[x].finish <= v.ran[y].start
  {
  }

  /** Every ready attempt is listed as ready for its node. */
  lemma ReadyContains(c: Config, w: map<string, Request>, s: State, k: Key)
    requires Safe(c, w, s) && k in s.pending
    ensures s.pending[k].plan.pNode in s.pNodes && k in s.pNodes[s.pending[k].plan.pNode].ready
  {
    hide Staged; hide Slotted; hide Timed; hide Arriving; hide Finished; hide Timely; hide DecodePool; hide WorkOf; hide Proxied;
    hide InOrder; hide ItemFits; hide EntryKeys; hide SpanKeys; hide NoIdle; hide Ran; hide NoRepeats; hide Queued;
    hide ReadyInTime;
    assert PlacedAt(s.alog.stage[k], s.pending[k], s.pNodes, k);
    var n := s.pending[k].plan.pNode;
    assert NodeSafe(c, w, s.alog.stage, s.pending, s.now, n, s.pNodes[n], s.serial);
  }

  /** Prefills of one P node never overlap, whatever their ready times. */
  lemma PrefillsNeverOverlap(c: Config, w: map<string, Request>, s: State, j: Key, k: Key)
    requires Safe(c, w, s) && j in s.pending && k in s.pending && j != k
    requires s.pending[j].plan.pNode == s.pending[k].plan.pNode
    requires s.pending[j].prefillStart.Some? && s.pending[k].prefillStart.Some?
    ensures s.pending[j].prefillFinish.Some? && s.pending[k].prefillFinish.Some?
    ensures || s.pending[j].prefillFinish.value <= s.pending[k].prefillStart.value
            || s.pending[k].prefillFinish.value <= s.pending[j].prefillStart.value
  {
    hide Staged; hide Slotted; hide Timed; hide Arriving; hide Finished; hide Timely; hide DecodePool; hide WorkOf; hide Proxied;
    hide InOrder; hide ItemFits; hide EntryKeys; hide NoIdle; hide Held; hide Queued; hide Ordered; hide ReadyInTime;
    hide Ran;
    assert PlacedAt(s.alog.stage[k], s.pending[k], s.pNodes, k);
    var n := s.pending[k].plan.pNode;
    var v := s.pNodes[n];
    assert NodeSafe(c, w, s.alog.stage, s.pending, s.now, n, v, s.serial);
    assert PlacedAt(s.alog.stage[j], s.pending[j], s.pNodes, j);
    var x :| 0 <= x < |v.ran| && SpanKeys(v.ran)[x] == j;
    var y :| 0 <= y < |v.ran| && SpanKeys(v.ran)[y] == k;
    if x < y { RanApart(s.alog.stage, s.pending, v, x, y); } else { RanApart(s.alog.stage, s.pending, v, y, x); }
  }

  /** Every attempt completes at most once, and only after it has decoded. */
  lemma CompletesAtMostOnce(c: Config, w: map<string, Request>, s: State, k: Key)
    requires Safe(c, w, s)
    ensures NoRepeats(s.alog.completed)
    ensures k in s.alog.completed ==> k in s.pending && s.pending[k].decodeStart.Some? && s.pending[k].finish.Some?
  {
    hide PrefillPool; hide Staged; hide Slotted; hide Timed; hide Arriving; hide Timely; hide LeaseAligned; hide ItemFits;
    hide NoIdle; hide Booked; hide NoRepeats;
    if k in s.alog.completed {
      assert Decoding(c, s.alog.stage[k], s.pending[k], s.alog.position, s.dNodes, k);
    }
  }

  /** When no event is left, everything ever issued has completed: nothing is lost in a
      queue, behind a gate or at a lease boundary. */
  lemma DrainedMeansDone(c: Config, w: map<string, Request>, s: State)
    requires Safe(c, w, s) && s.queue == {}
    ensures s.planned == map[] && s.pending.Keys == s.issued
    ensures forall k :: k in s.issued <==> k in s.alog.completed
  {
    hide DecodePool; hide Slotted; hide Timed; hide Arriving; hide Timely; hide Ordered; hide Proxied; hide Ran; hide ReadyInTime;
    hide InOrder; hide ItemFits; hide NoRepeats; hide EntryKeys; hide SpanKeys;
    forall k | k in s.alog.stage ensures s.alog.stage[k].Done? {
      assert Owned(s.queue, k, s.alog.stage[k]);
      if s.alog.stage[k].Waiting? { NobodyWaits(c, w, s, k); }
    }
  }

  lemma NobodyHolds(c: Config, w: map<string, Request>, s: State, n: string)
    requires Safe(c, w, s) && s.queue == {} && n in s.pNodes
    ensures s.pNodes[n].waiting == []
  {
    hide DecodePool; hide Slotted; hide Timed; hide Arriving; hide Timely; hide Ordered; hide Proxied; hide Ran; hide ReadyInTime;
    hide InOrder; hide ItemFits; hide NoRepeats; hide SpanKeys; hide EntryKeys;
    var v := s.pNodes[n];
    assert NodeSafe(c, w, s.alog.stage, s.pending, s.now, n, v, s.serial);
    assert NoIdle(v);
    assert v.holder.Some? ==> Owned(s.queue, v.holder.value, s.alog.stage[v.holder.value]);
  }

  lemma NobodyWaits(c: Config, w: map<string, Request>, s: State, k: Key)
    requires Safe(c, w, s) && s.queue == {} && k in s.alog.stage
    ensures !s.alog.stage[k].Waiting?
  {
    hide DecodePool; hide Slotted; hide Timed; hide Arriving; hide Timely; hide NodeSafe; hide ItemFits; hide NoRepeats; hide SpanKeys;
    if k in s.pending {
      assert PlacedAt(s.alog.stage[k], s.pending[k], s.pNodes, k);
      NobodyHolds(c, w, s, s.pending[k].plan.pNode);
    }
  }

  // --- retries --------------------------------------------------------------

  function AttemptsOf(issued: set<Key>, id: string): set<Key> {
    set k | k in issued && k.0 == id
  }

  /** What a policy may issue: its own request's next attempt, not issued before, no earlier than the
      request, on nodes that exist. */
  ghost predicate MayBeIssued(c: Config, r: Request, spec: Spec, issued: set<Key>) {
    && spec.id == r.id && (spec.id, spec.index) !in issued && r.arrivalWork <= spec.arrivalWork
    && spec.pNode in c.prefillNodes && spec.dNode in c.decodeNodes
  }

  /** An arrival is accepted exactly with no plan, or with one that may be issued; then that attempt, and
      no other, is on its way, ready at its own arrival. */
  lemma ArrivalIssuesOneAttempt(c: Config, s: State, r: Request, plans: seq<Spec>)
    ensures var t := OnArrival(c, s, r, plans);
            && (t.Ok? <==> plans == [] || (|plans| == 1 && MayBeIssued(c, r, plans[0], s.issued)))
            && (t.Ok? && plans == [] ==> t.value == s)
            && (t.Ok? && plans != [] ==>
                  && t.value.issued == s.issued + {(r.id, plans[0].index)}
                  && t.value.planned == s.planned[(r.id, plans[0].index) := NewPending(r, plans[0])]
                  && t.value.queue
                     == s.queue + {Event(plans[0].arrivalWork, AttemptReady, s.serial, Concerns((r.id, plans[0].index)))})
  {
    hide Rank;
  }

  /** An attempt that did not complete may be retried once within the budget its record shows, with a
      plan that may be issued; a completed one is not. */
  lemma CompletionIssuesRetry(c: Config, s: State, k: Key, m: Mutation, retry: Option<Spec>)
    requires k in s.pending && CacheAfter(c, s.cache, s.pending[k], m).Ok?
    ensures var t, item := OnCompletion(c, s, k, m, retry), s.pending[k];
            var again := retry.Some? && !item.spec.terminal.Completed?;
            && (t.Ok? <==> (again ==> item.spec.index < c.retryBudget
                                      && MayBeIssued(c, item.request, retry.value, s.issued)))
            && (t.Ok? ==> t.value.alog.completed == s.alog.completed + [k]
                          && t.value.cache == CacheAfter(c, s.cache, item, m).value)
            && (t.Ok? && !again ==> t.value.issued == s.issued && t.value.queue == s.queue)
            && (t.Ok? && again ==> t.value.issued == s.issued + {(item.request.id, retry.value.index)}
                                   && (item.request.id, retry.value.index) in t.value.planned)
  {
    hide Rank; hide CacheAfter; hide RetrySlot; hide Moved;
  }

  /** The later of the end of a node's booking and a fence. */
  ghost predicate IsLaterOf(at: real, booked: real, fence: real) {
    at >= booked && at >= fence && (at == booked || at == fence)
  }

  lemma GateFields(s: State, k: Key, at: real)
    ensures var t := Gate(s, k, at);
            && t.pending == s.pending && k in t.alog.stage && t.alog.stage[k].Gated? && t.alog.stage[k].event.at == at
            && t.alog.stage[k].event in t.queue && t.alog.stage[k].event.payload == Concerns(k)
  {
    hide Rank;
  }

  lemma BeginFields(c: Config, s: State, k: Key, lease: Option<int>)
    requires k in s.pending && s.pending[k].spec.dNode in s.dNodes
    ensures var t := BeginDecode(c, s, k, lease);
            && (t.Ok? <==> (lease.Some? ==> 0 < lease.value < s.pending[k].spec.emittedTokens))
            && (t.Ok? ==> k in t.value.pending && t.value.pending[k].decodeStart == Some(s.now))
  {
    hide Moved; hide DecodeWork;
  }

  /** A decode begins as soon as its node is free and its fence allows it, and is otherwise put off to
      the later of the two; a lease has to end within its output. */
  lemma DecodeWaitsForNodeAndFence(c: Config, s: State, k: Key, fence: real, lease: Option<int>)
    requires k in s.pending && s.pending[k].decodeStart.None? && s.pending[k].spec.dNode in s.dNodes
    ensures var t, booked := OnDecodeStart(c, s, k, fence, lease), s.dNodes[s.pending[k].spec.dNode].available;
            var now := booked <= s.now && fence <= s.now;
            && (t.Ok? <==> (now && lease.Some? ==> 0 < lease.value < s.pending[k].spec.emittedTokens))
            && (t.Ok? ==> k in t.value.pending && k in t.value.alog.stage)
            && (t.Ok? && now ==> t.value.pending[k].decodeStart == Some(s.now))
            && (t.Ok? && !now ==>
                  && t.value.pending[k].decodeStart.None? && t.value.alog.stage[k].Gated?
                  && IsLaterOf(t.value.alog.stage[k].event.at, booked, fence))
  {
    hide Gate; hide BeginDecode;
    var booked := s.dNodes[s.pending[k].spec.dNode].available;
    GateFields(s, k, Max(s.now, Max(booked, fence)));
    BeginFields(c, s, k, lease);
    if booked <= s.now && fence <= s.now && BeginDecode(c, s, k, lease).Ok? { BeginMoves(c, s, k, lease); }
  }

  lemma BeginMoves(c: Config, s: State, k: Key, lease: Option<int>)
    requires k in s.pending && s.pending[k].spec.dNode in s.dNodes && BeginDecode(c, s, k, lease).Ok?
    ensures k in BeginDecode(c, s, k, lease).value.alog.stage
  {
    hide Rank; hide DecodeWork;
  }

  /** The same when a prefill finishes, except that a fence in the past is refused. */
  lemma FinishWaitsForNodeAndFence(c: Config, s: State, k: Key, fence: real, lease: Option<int>)
    requires k in s.pending && s.pending[k].decodeStart.None? && s.pending[k].spec.dNode in s.dNodes
    requires s.pending[k].spec.pNode in s.pNodes
    ensures var t, booked := OnPrefillFinish(c, s, k, fence, lease), s.dNodes[s.pending[k].spec.dNode].available;
            var now := booked <= s.now && fence == s.now;
            && (t.Ok? <==> fence >= s.now && (now && lease.Some? ==> 0 < lease.value < s.pending[k].spec.emittedTokens))
            && (t.Ok? ==> k in t.value.pending && k in t.value.alog.stage)
            && (t.Ok? && now ==> t.value.pending[k].decodeStart == Some(s.now))
            && (t.Ok? && !now ==>
                  && t.value.pending[k].decodeStart.None? && t.value.alog.stage[k].Gated?
                  && IsLaterOf(t.value.alog.stage[k].event.at, booked, fence))
  {
    hide Gate; hide BeginDecode; hide HandOver;
    var booked, n := s.dNodes[s.pending[k].spec.dNode].available, s.pending[k].spec.pNode;
    var t := HandOver(s, k, n);
    HandOverFields(s, k, n);
    GateFields(t, k, Max(s.now, Max(booked, fence)));
    BeginFields(c, t, k, lease);
    if booked <= s.now && fence == s.now && BeginDecode(c, t, k, lease).Ok? { BeginMoves(c, t, k, lease); }
  }

  lemma HandOverFields(s: State, k: Key, n: string)
    requires n in s.pNodes
    ensures var t := HandOver(s, k, n); t.now == s.now && t.pending == s.pending && t.dNodes == s.dNodes
  {
    hide Dispatch; hide Release; hide LeastIndex; hide Max;
    var w := s.pNodes[n].waiting;
    ReleaseFields(s, k, n);
    if w != [] { DispatchFields(Release(s, k, n), n, Max(s.now, w[LeastIndex(w)].at)); }
  }

  /** An abort is accepted exactly when the attempt has decoded a positive number of whole tokens, but not
      all it was to emit; a boundary without an abort lets it run to its finish. */
  lemma AbortNeedsPartialProgress(c: Config, s: State, k: Key, revised: Spec, order: seq<Key>)
    requires k in s.pending && s.pending[k].decodeStart.Some? && s.pending[k].finish.Some?
    ensures var t, item, w := OnLeaseBoundary(c, s, k, revised, order), s.pending[k], c.cost.decodePerToken;
            && (revised.terminal.Aborted? ==>
                  (t.Ok? <==> w > 0.0 && exists n: int :: 0 < n < item.spec.emittedTokens
                                                         && s.now - item.decodeStart.value == DecodeWork(c, n)))
            && (!revised.terminal.Aborted? ==>
                  t.Ok? && t.value.pending == s.pending
                  && t.value.queue == s.queue + {Event(item.finish.value, Completion, s.serial, Concerns(k))})
  {
    hide Wake; hide EndLease; hide ElapsedTokens; hide Moved; hide DecodeWork;
    var item := s.pending[k];
    if revised.terminal.Aborted? {
      WholeTokens(c, s.now - item.decodeStart.value, item.spec.emittedTokens);
    }
  }

  lemma WholeTokens(c: Config, work: real, emitted: nat)
    ensures var e := ElapsedTokens(work, c.cost.decodePerToken);
            (e.Ok? && 0 < e.value < emitted)
            <==> c.cost.decodePerToken > 0.0 && exists n: int :: 0 < n < emitted && work == DecodeWork(c, n)
  {
    hide ElapsedTokens; hide DecodeWork;
    var e := ElapsedTokens(work, c.cost.decodePerToken);
    TokensOfWork(c, work);
    if c.cost.decodePerToken > 0.0 {
      forall n: int | 0 < n < emitted && work == DecodeWork(c, n) ensures e == KernelModel.Ok(n) {
        WorkOfTokens(c, n);
      }
    }
  }

  lemma TokensOfWork(c: Config, work: real)
    ensures var e := ElapsedTokens(work, c.cost.decodePerToken);
            e.Ok? ==> c.cost.decodePerToken > 0.0 && work == DecodeWork(c, e.value)
  {
  }

  lemma WorkOfTokens(c: Config, n: nat)
    requires c.cost.decodePerToken > 0.0
    ensures ElapsedTokens(DecodeWork(c, n), c.cost.decodePerToken) == KernelModel.Ok(n)
  {
    hide ElapsedTokens;
    ElapsedExactly(n, c.cost.decodePerToken);
  }

  /** The slots beyond the budget at `at` are the one-token delays that still begin in the window. */
  lemma OvertimeIsDelaysThatFit(c: Config, at: real, i: nat)
    requires c.cost.decodePerToken >= 0.0
    ensures c.retryBudget + i < OvertimeSlot(c, at)
            <==> c.cost.decodePerToken > 0.0 && at + i as real * c.cost.decodePerToken <= c.observationEnd
  {
    var delta := c.cost.decodePerToken;
    if delta > 0.0 {
      ProductNotNegative(i, delta);
      if at <= c.observationEnd {
        var q := (c.observationEnd - at) / delta;
        assert q * delta == c.observationEnd - at;
        if i as real <= q { Scales(i as real, q, delta); } else { ScalesStrictly(q, i as real, delta); }
        assert i <= q.Floor <==> i as real <= q;
      }
    }
  }

  lemma ProductNotNegative(i: nat, delta: real)
    requires delta >= 0.0
    ensures i as real * delta >= 0.0
  {
  }

  lemma Scales(x: real, y: real, d: real)
    requires x <= y && d >= 0.0
    ensures x * d <= y * d
  {
    assert (y - x) * d >= 0.0;
  }

  lemma ScalesStrictly(x: real, y: real, d: real)
    requires x < y && d > 0.0
    ensures x * d < y * d
  {
    assert (y - x) * d > 0.0;
  }

  /** For any policy and whatever its aborts name, a request gets no more attempts than it has slots:
      one, its retry budget, and as many as delays of one token fit the window. */
  lemma AttemptsRunOut(c: Config, w: map<string, Request>, s: State, id: string)
    requires Safe(c, w, s)
    ensures |AttemptsOf(s.issued, id)| <= OvertimeSlot(c, c.observationStart) + 1
  {
    hide OvertimeSlot;
    AttemptsWithin(c, w, s, id, OvertimeSlot(c, c.observationStart));
  }

  /** A request whose attempts take the first slots only has no more attempts than that. */
  lemma AttemptsWithin(c: Config, w: map<string, Request>, s: State, id: string, bound: nat)
    requires Safe(c, w, s) && bound <= OvertimeSlot(c, c.observationStart)
    requires bound < OvertimeSlot(c, c.observationStart) ==>
               forall k :: k in s.alog.slot && k.0 == id ==> s.alog.slot[k] < bound
    ensures |AttemptsOf(s.issued, id)| <= bound + 1
  {
    hide PrefillPool; hide DecodePool; hide Staged; hide Timed; hide Arriving; hide Timely; hide Finished; hide ItemFits;
    hide NoIdle; hide OvertimeSlot;
    var slot := s.alog.slot;
    forall k | k in slot && k.0 == id ensures -1 <= slot[k] < bound && (k.0, slot[k]) in s.alog.owner
                                 && s.alog.owner[(k.0, slot[k])] == k {
      assert TakesSlot(c, s.alog.stage, s.alog.owner, s.alog.rank, k, slot[k]);
    }
    SlotsAreDistinct(AttemptsOf(s.issued, id), slot, id, bound, s.alog.owner);
  }

  lemma {:induction false} SlotsAreDistinct(ks: set<Key>, slot: map<Key, int>, id: string, budget: nat,
                                            owner: map<(string, int), Key>)
    requires forall k :: k in ks ==> k in slot && k.0 == id && -1 <= slot[k] < budget
                                      && (id, slot[k]) in owner && owner[(id, slot[k])] == k
    ensures |ks| <= budget + 1
  {
    if budget == 0 {
      forall j, k | j in ks && k in ks ensures j == k { assert slot[j] == slot[k] == -1; }
      AtMostOne(ks);
    } else {
      var rest := set k | k in ks && slot[k] != budget - 1;
      SlotsAreDistinct(rest, slot, id, budget - 1, owner);
      forall j, k | j in ks - rest && k in ks - rest ensures j == k { assert slot[j] == slot[k] == budget - 1; }
      AtMostOne(ks - rest);
      assert ks == rest + (ks - rest);
    }
  }

  lemma AtMostOne(ks: set<Key>)
    requires forall j, k :: j in ks && k in ks ==> j == k
    ensures |ks| <= 1
  {
    if ks != {} {
      var k :| k in ks;
      assert ks == {k};
    }
  }

  // --- an abort wakes everyone it should ------------------------------------

  /** A wake-up of `k` at `at` is in the queue. */
  ghost predicate WokenAt(queue: set<Event>, k: Key, at: real) {
    exists e :: e in queue && e.at == at && e.kind.DecodeStart? && e.payload == Concerns(k)
  }

  lemma {:induction false} WakeReaches(s: State, order: seq<Key>, k: Key)
    requires k in order
    ensures WokenAt(Wake(s, order).queue, k, s.now)
    decreases |order|
  {
    var front, last := order[..|order| - 1], order[|order| - 1];
    var t := Wake(s, front);
    var e := NextEvent(t, s.now, DecodeStart, last);
    assert Wake(s, order).queue == t.queue + {e};
    if k == last {
      assert e in Wake(s, order).queue;
    } else {
      WakeReaches(s, front, k);
    }
  }

  /** An abort frees the D node it names at once, and every attempt still gated behind that node's
      booking gets a wake-up at that very instant. */
  lemma AbortWakesSleepers(c: Config, s: State, e: Event, a: Answers, k: Key)
    requires Aborts(s, e, a) && ListsSleepers(s, e, a) && Step(c, s, e, a).Ok?
    requires Sleeping(Pop(s, e), a.revised.dNode, k)
    ensures var t := Step(c, s, e, a).value;
            && WokenAt(t.queue, k, e.at) && a.revised.dNode in t.dNodes
            && t.dNodes[a.revised.dNode].available == e.at
  {
    hide Wake; hide Moved; hide CutShort; hide ElapsedTokens; hide WokenAt; hide IsNext;
    var j, p := e.payload.key, Pop(s, e);
    var emitted := ElapsedTokens(p.now - p.pending[j].decodeStart.value, c.cost.decodePerToken);
    var freed := EndLease(p, j, a.revised, emitted.value);
    SleepsStill(p, j, a.revised, k);
    WakeReaches(freed, a.wakeOrder, k);
    WakeFields(freed, a.wakeOrder);
    WokenStays(Wake(freed, a.wakeOrder), j, k, e.at);
  }

  /** Ending the lease of an attempt that decodes puts nobody else's gate off. */
  lemma SleepsStill(s: State, j: Key, revised: Spec, k: Key)
    requires j in s.pending && s.pending[j].decodeStart.Some? && Sleeping(s, revised.dNode, k)
    ensures Sleeping(EndLease(s, j, revised, 0), revised.dNode, k)
  {
    hide CutShort;
  }

  lemma WokenStays(s: State, j: Key, k: Key, at: real)
    requires WokenAt(s.queue, k, at)
    ensures WokenAt(Complete(s, j, s.now).queue, k, at)
  {
  }
}
