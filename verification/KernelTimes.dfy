/** How long everything in a run takes: in every reachable state each attempt became ready, was
    prefilled and decoded at the instants its own plan, prompt and output account for
    (src/prefill_cache_sim/m12_kernel.py:550-886).
 */
module KernelTimes {
  import opened Options
  import opened KernelModel
  import opened KernelSteps
  import opened KernelSafety
  import opened KernelInvariant
  import opened KernelHandlers
  import opened KernelRuns
  import opened PrefillPrices

  /** The kinds in the order in which simultaneous events are handled. */
  const HANDLED_IN_ORDER: seq<Kind> :=
    [Completion, LeaseBoundary, PrefillFinish, DecodeStart, AttemptReady, PrefillStart, Arrival]

  /** Of two events the earlier is popped; of simultaneous ones that whose kind comes first; of those of
      one kind that pushed first.  So any two events of different serials are in order. */
  lemma EventsArePoppedInOrder(e: Event, f: Event, i: nat, j: nat)
    requires i < |HANDLED_IN_ORDER| && j < |HANDLED_IN_ORDER|
    requires e.kind == HANDLED_IN_ORDER[i] && f.kind == HANDLED_IN_ORDER[j]
    ensures Before(e, f) <==> e.at < f.at || (e.at == f.at && (i < j || (i == j && e.serial < f.serial)))
    ensures e.serial != f.serial ==> (Before(e, f) <==> !Before(f, e))
  {
  }

  function Later(x: real, y: real): (r: real)
    ensures r >= x && r >= y && (r == x || r == y)
  {
    if x < y then y else x
  }

  /** The record's prefill work and transfers are the price of its prompt. */
  ghost predicate Priced(c: Config, item: Pending) {
    exists local: set<string>, n: nat :: n <= |item.request.prefix| && Pays(c.cost, item, local, n)
  }

  /** Up to `now`: ready at the later of its issue and its own arrival, prefilled for its price,
      decoded for its tokens, each only after the one before. */
  ghost predicate TakesItsTime(c: Config, now: real, since: real, st: Stage, item: Pending) {
    && (st.Planned? ==> st.event.at == Later(since, item.plan.arrivalWork) && item.prefillStart.None?)
    && (!st.Planned? ==> item.attemptReady == Some(Later(since, item.plan.arrivalWork)) && item.attemptReady.value <= now)
    && (item.prefillStart.None? ==> item.prefillWork == 0.0 && item.kvsWork == 0.0 && item.kvsBytes == 0)
    && (item.prefillStart.Some? ==>
          && !st.Planned? && item.attemptReady.value <= item.prefillStart.value <= now
          && item.prefillFinish == Some(item.prefillStart.value + item.prefillWork + item.kvsWork)
          && Priced(c, item))
    && (st.Prefilling? ==> item.prefillStart.Some? && item.prefillFinish == Some(st.event.at))
    && (Late(st) ==> item.prefillStart.Some? && item.prefillFinish.value <= now)
    && (item.decodeStart.Some? ==>
          && item.prefillStart.Some? && item.prefillFinish.value <= item.decodeStart.value <= now
          && item.finish == Some(item.decodeStart.value + item.spec.emittedTokens as real * c.cost.decodePerToken))
  }

  ghost predicate AllInTime(c: Config, s: State) {
    && s.alog.since.Keys == s.alog.stage.Keys
    && (forall k {:trigger k in s.planned} ::
          k in s.planned ==> k in s.alog.stage && TakesItsTime(c, s.now, s.alog.since[k], s.alog.stage[k], s.planned[k]))
    && (forall k {:trigger k in s.pending} ::
          k in s.pending ==> k in s.alog.stage && TakesItsTime(c, s.now, s.alog.since[k], s.alog.stage[k], s.pending[k]))
  }

  /** Only attempt `k` moves, but for one that may be handed a node. */
  ghost predicate OnlyMoves(s: State, t: State, k: Key) {
    && s.now <= t.now && t.alog.since.Keys == t.alog.stage.Keys
    && (forall j :: j in t.planned && j != k ==> j in s.planned && t.planned[j] == s.planned[j])
    && (forall j :: j in t.pending && j != k ==> j in s.pending && t.pending[j] == s.pending[j])
    && (forall j :: j in s.alog.stage && j != k ==>
          && j in t.alog.stage && j in s.alog.since && t.alog.since[j] == s.alog.since[j]
          && (t.alog.stage[j] == s.alog.stage[j] || (s.alog.stage[j].Waiting? && t.alog.stage[j].Scheduled?)))
  }

  lemma TimeGoesOn(c: Config, now: real, since: real, st: Stage, item: Pending, now': real, st': Stage)
    requires TakesItsTime(c, now, since, st, item) && now <= now'
    requires st' == st || (st.Waiting? && st'.Scheduled?)
    ensures TakesItsTime(c, now', since, st', item)
  {
    hide Priced; hide Later;
  }

  lemma OthersStayInTime(c: Config, s: State, t: State, k: Key)
    requires AllInTime(c, s) && OnlyMoves(s, t, k) && k in t.alog.stage
    requires k in t.planned ==> TakesItsTime(c, t.now, t.alog.since[k], t.alog.stage[k], t.planned[k])
    requires k in t.pending ==> TakesItsTime(c, t.now, t.alog.since[k], t.alog.stage[k], t.pending[k])
    ensures AllInTime(c, t)
  {
    hide TakesItsTime;
    forall j | j in t.planned
      ensures j in t.alog.stage && TakesItsTime(c, t.now, t.alog.since[j], t.alog.stage[j], t.planned[j])
    {
      if j != k {
        TimeGoesOn(c, s.now, s.alog.since[j], s.alog.stage[j], s.planned[j], t.now, t.alog.stage[j]);
      }
    }
    forall j | j in t.pending
      ensures j in t.alog.stage && TakesItsTime(c, t.now, t.alog.since[j], t.alog.stage[j], t.pending[j])
    {
      if j != k {
        TimeGoesOn(c, s.now, s.alog.since[j], s.alog.stage[j], s.pending[j], t.now, t.alog.stage[j]);
      }
    }
  }

  lemma InTimeAt(c: Config, s: State, k: Key)
    requires AllInTime(c, s)
    ensures s.alog.since.Keys == s.alog.stage.Keys
    ensures k in s.planned ==> k in s.alog.stage && TakesItsTime(c, s.now, s.alog.since[k], s.alog.stage[k], s.planned[k])
    ensures k in s.pending ==> k in s.alog.stage && TakesItsTime(c, s.now, s.alog.since[k], s.alog.stage[k], s.pending[k])
  {
    hide TakesItsTime;
  }

  /** The common shape of a move: one running attempt gets a new stage and a new record. */
  lemma MoveInTime(c: Config, s: State, t: State, k: Key, st: Stage, item: Pending)
    requires AllInTime(c, s) && k in s.pending && k !in s.planned && k in s.alog.stage
    requires t.now == s.now && t.planned == s.planned && t.pending == s.pending[k := item]
    requires t.alog.since == s.alog.since && t.alog.stage == s.alog.stage[k := st]
    requires TakesItsTime(c, s.now, s.alog.since[k], st, item)
    ensures AllInTime(c, t)
  {
    hide TakesItsTime;
    OthersStayInTime(c, s, t, k);
  }

  lemma ClockStaysInTime(c: Config, s: State, e: Event)
    requires AllInTime(c, s) && s.now <= e.at
    ensures AllInTime(c, Pop(s, e))
  {
    hide TakesItsTime;
    var t := Pop(s, e);
    forall j | j in t.planned ensures TakesItsTime(c, t.now, t.alog.since[j], t.alog.stage[j], t.planned[j]) {
      TimeGoesOn(c, s.now, s.alog.since[j], s.alog.stage[j], s.planned[j], t.now, t.alog.stage[j]);
    }
    forall j | j in t.pending ensures TakesItsTime(c, t.now, t.alog.since[j], t.alog.stage[j], t.pending[j]) {
      TimeGoesOn(c, s.now, s.alog.since[j], s.alog.stage[j], s.pending[j], t.now, t.alog.stage[j]);
    }
  }

  lemma MovedFields(log: AttemptLog, k: Key, st: Stage)
    ensures Moved(log, k, st).stage == log.stage[k := st] && Moved(log, k, st).since == log.since
  {
    hide Rank;
  }

  // --- one attempt at a time ------------------------------------------------

  lemma Planning(c: Config, now: real, r: Request, spec: Spec, e: Event)
    requires e.at == Later(now, spec.arrivalWork)
    ensures TakesItsTime(c, now, now, Planned(e), NewPending(r, spec))
  {
    hide Priced;
  }

  lemma Readying(c: Config, now: real, since: real, st: Stage, item: Pending, st': Stage)
    requires TakesItsTime(c, now, since, st, item) && st.Planned? && st.event.at == now && item.decodeStart.None?
    requires st'.Waiting? || st'.Scheduled?
    ensures TakesItsTime(c, now, since, st', item.(attemptReady := Some(now)))
  {
    hide Priced; hide Later;
  }

  lemma Starting(c: Config, now: real, since: real, st: Stage, item: Pending, e: Event, item': Pending)
    requires TakesItsTime(c, now, since, st, item) && st.Scheduled? && item.decodeStart.None?
    requires item' == item.(prefillStart := Some(now), prefillFinish := Some(e.at), prefillWork := item'.prefillWork,
                            kvsWork := item'.kvsWork, kvsBytes := item'.kvsBytes)
    requires e.at == now + item'.prefillWork + item'.kvsWork && Priced(c, item')
    ensures TakesItsTime(c, now, since, Prefilling(e), item')
  {
    hide Priced; hide Later;
  }

  predicate Prefilled(now: real, item: Pending) {
    item.prefillStart.Some? && item.prefillFinish.Some? && item.prefillFinish.value <= now
  }

  /** An attempt whose prefill is over may be freed, gated, begun or settled. */
  lemma MovingOn(c: Config, now: real, since: real, st: Stage, item: Pending, st': Stage)
    requires TakesItsTime(c, now, since, st, item) && Prefilled(now, item)
    requires st'.Prefilled? || Late(st')
    ensures TakesItsTime(c, now, since, st', item)
  {
    hide Priced; hide Later;
  }

  /** ... and decodes for as many tokens as it emits, from its start or cut short by an abort. */
  lemma Decoding(c: Config, now: real, since: real, st: Stage, item: Pending, st': Stage, item': Pending)
    requires TakesItsTime(c, now, since, st, item) && Prefilled(now, item) && Late(st')
    requires item' == item.(spec := item'.spec, decodeStart := item'.decodeStart, finish := item'.finish)
    requires item'.decodeStart.Some? && item'.finish.Some?
    requires item'.decodeStart == item.decodeStart || item'.decodeStart.value == now
    requires item'.finish.value == item'.decodeStart.value + item'.spec.emittedTokens as real * c.cost.decodePerToken
    ensures TakesItsTime(c, now, since, st', item')
  {
    SamePrice(c, item, item');
  }

  lemma SamePrice(c: Config, a: Pending, b: Pending)
    requires b == a.(spec := b.spec, decodeStart := b.decodeStart, finish := b.finish)
    ensures Priced(c, a) ==> Priced(c, b)
  {
    hide Pays;
    if Priced(c, a) {
      var local: set<string>, n: nat :| n <= |a.request.prefix| && Pays(c.cost, a, local, n);
      PaysAlike(c.cost, a, b, local, n);
    }
  }

  lemma PaysAlike(cost: CostModel, a: Pending, b: Pending, local: set<string>, n: nat)
    requires n <= |a.request.prefix| && Pays(cost, a, local, n)
    requires b == a.(spec := b.spec, decodeStart := b.decodeStart, finish := b.finish)
    ensures Pays(cost, b, local, n)
  {
    assert Fetched(local, b.request.prefix, n) == Fetched(local, a.request.prefix, n);
  }

  // --- the handlers ---------------------------------------------------------

  /** New work becomes ready at the later of now and the arrival it asks for. */
  lemma IssuedInTime(c: Config, s: State, r: Request, spec: Spec, at: real, slot: int)
    requires AllInTime(c, s) && (spec.id, spec.index) !in s.alog.stage && at == Later(s.now, spec.arrivalWork)
    ensures AllInTime(c, Issue(s, r, spec, at, slot))
  {
    hide Later; hide TakesItsTime; hide Rank;
    var k, t := (spec.id, spec.index), Issue(s, r, spec, at, slot);
    assert OnlyMoves(s, t, k);
    Planning(c, s.now, r, spec, t.alog.stage[k].event);
    OthersStayInTime(c, s, t, k);
  }

  /** Whoever waits for a node is waiting. */
  ghost predicate WaitersWait(s: State) {
    forall n, i :: n in s.pNodes && 0 <= i < |s.pNodes[n].waiting| ==>
      s.pNodes[n].waiting[i].key in s.alog.stage && s.alog.stage[s.pNodes[n].waiting[i].key].Waiting?
  }

  lemma DispatchMoves(s: State, n: string, at: real)
    requires n in s.pNodes && s.pNodes[n].waiting != []
    ensures var t := Dispatch(s, n, at);
            && t.now == s.now && t.planned == s.planned && t.pending == s.pending && t.alog.since == s.alog.since
            && exists i, e :: 0 <= i < |s.pNodes[n].waiting|
                              && t.alog.stage == s.alog.stage[s.pNodes[n].waiting[i].key := Scheduled(e)]
  {
    hide Dispatched; hide Moved;
    var q := s.pNodes[n].waiting;
    var i := LeastIndex(q);
    var e := NextEvent(s, at, PrefillStart, q[i].key);
    MovedFields(s.alog, q[i].key, Scheduled(e));
    assert 0 <= i < |q| && Dispatch(s, n, at).alog.stage == s.alog.stage[q[i].key := Scheduled(e)];
  }

  lemma EnqueueMoves(c: Config, s: State, k: Key)
    requires k in s.planned && s.planned[k].spec.pNode in s.pNodes && WaitersWait(s)
    ensures var t := Enqueue(c, s, k);
            && t.now == s.now && t.planned == s.planned - {k}
            && t.pending == s.pending[k := s.planned[k].(attemptReady := Some(s.now))]
            && t.alog.since == s.alog.since && t.alog.stage == s.alog.stage[k := Waiting]
            && t.pNodes.Keys == s.pNodes.Keys && t.pNodes[s.planned[k].spec.pNode].waiting != [] && WaitersWait(t)
  {
    hide Moved; hide MaximumPrefillWork;
    MovedFields(s.alog, k, Waiting);
  }

  lemma ReadyInTime(c: Config, s: State, k: Key)
    requires AllInTime(c, s) && OnReady(c, s, k).Ok? && WaitersWait(s)
    requires s.alog.stage[k].Planned? && s.alog.stage[k].event.at == s.now && s.planned[k].decodeStart.None?
    ensures AllInTime(c, OnReady(c, s, k).value)
  {
    hide Later; hide TakesItsTime; hide Enqueue; hide Dispatch; hide WaitersWait;
    var t, u := Enqueue(c, s, k), OnReady(c, s, k).value;
    var n := s.planned[k].spec.pNode;
    EnqueueMoves(c, s, k);
    InTimeAt(c, s, k);
    Readying(c, s.now, s.alog.since[k], s.alog.stage[k], s.planned[k], Waiting);
    OthersStayInTime(c, s, t, k);
    if s.pNodes[n].busy {
      OthersStayInTime(c, t, u, k);
    } else {
      DispatchedInTime(c, t, n, s.now);
    }
  }

  lemma DispatchedInTime(c: Config, s: State, n: string, at: real)
    requires AllInTime(c, s) && n in s.pNodes && s.pNodes[n].waiting != [] && WaitersWait(s)
    ensures AllInTime(c, Dispatch(s, n, at))
  {
    hide Later; hide TakesItsTime; hide Dispatch;
    var t, q := Dispatch(s, n, at), s.pNodes[n].waiting;
    DispatchMoves(s, n, at);
    var i, e :| 0 <= i < |q| && t.alog.stage == s.alog.stage[q[i].key := Scheduled(e)];
    var k := q[i].key;
    if k in s.planned { TimeGoesOn(c, s.now, s.alog.since[k], s.alog.stage[k], s.planned[k], t.now, t.alog.stage[k]); }
    if k in s.pending { TimeGoesOn(c, s.now, s.alog.since[k], s.alog.stage[k], s.pending[k], t.now, t.alog.stage[k]); }
    OthersStayInTime(c, s, t, k);
  }

  lemma StartMoves(c: Config, s: State, k: Key)
    requires OnPrefillStart(c, s, k).Ok?
    ensures var t := OnPrefillStart(c, s, k).value;
            && t.now == s.now && t.planned == s.planned && t.alog.since == s.alog.since
            && k in t.pending && t.pending == s.pending[k := t.pending[k]]
            && (exists e :: t.alog.stage == s.alog.stage[k := Prefilling(e)] && t.pending[k].prefillFinish == Some(e.at))
            && t.pending[k] == s.pending[k].(prefillStart := Some(s.now), prefillFinish := t.pending[k].prefillFinish,
                                             prefillWork := t.pending[k].prefillWork, kvsWork := t.pending[k].kvsWork,
                                             kvsBytes := t.pending[k].kvsBytes)
  {
    hide Moved; hide KernelModel.Priced; hide QueueWork; hide AllPending;
    var t := OnPrefillStart(c, s, k).value;
    PricedSame(c, s.pending[k].(prefillStart := Some(s.now)), s.cache);
    var e := NextEvent(s, t.pending[k].prefillFinish.value, PrefillFinish, k);
    MovedFields(s.alog, k, Prefilling(e));
    assert t.alog.stage == s.alog.stage[k := Prefilling(e)] && t.pending[k].prefillFinish == Some(e.at);
  }

  lemma {:induction false} CoveredReuses(spec: Spec, cache: map<string, set<string>>, prefix: seq<Block>, n: nat)
    requires spec.pNode in cache && n == CoveredCount(spec, cache, prefix)
    ensures Reuses(spec, cache, prefix, n)
  {
    forall b ensures Usable(spec, cache, b) <==> Reusable(spec, cache, b) { UsableIsReusable(spec, cache, b); }
  }

  lemma StartIsPriced(c: Config, s: State, k: Key)
    requires OnPrefillStart(c, s, k).Ok?
    ensures var t := OnPrefillStart(c, s, k).value;
            && k in t.pending && Priced(c, t.pending[k])
            && t.pending[k].prefillFinish == Some(s.now + t.pending[k].prefillWork + t.pending[k].kvsWork)
  {
    hide Pays; hide Reuses; hide CoveredCount; hide OnPrefillStart;
    StartNode(c, s, k);
    var item := s.pending[k];
    var n := CoveredCount(item.spec, s.cache, item.request.prefix);
    CoveredReuses(item.spec, s.cache, item.request.prefix, n);
    PrefillTakesItsPrice(c, s, k, n);
    StartMoves(c, s, k);
    assert Pays(c.cost, OnPrefillStart(c, s, k).value.pending[k], s.cache[item.spec.pNode], n);
  }

  lemma StartNode(c: Config, s: State, k: Key)
    requires OnPrefillStart(c, s, k).Ok?
    ensures k in s.pending && s.pending[k].spec.pNode in s.cache
  {
  }

  lemma StartedInTime(c: Config, s: State, k: Key)
    requires AllInTime(c, s) && OnPrefillStart(c, s, k).Ok?
    requires s.alog.stage[k].Scheduled? && s.pending[k].decodeStart.None? && k !in s.planned
    ensures AllInTime(c, OnPrefillStart(c, s, k).value)
  {
    hide Later; hide TakesItsTime; hide Priced; hide OnPrefillStart; hide AllInTime;
    var t := OnPrefillStart(c, s, k).value;
    StartNode(c, s, k);
    InTimeAt(c, s, k);
    StartMoves(c, s, k);
    StartIsPriced(c, s, k);
    var e :| t.alog.stage == s.alog.stage[k := Prefilling(e)] && t.pending[k].prefillFinish == Some(e.at);
    Starting(c, s.now, s.alog.since[k], s.alog.stage[k], s.pending[k], e, t.pending[k]);
    MoveInTime(c, s, t, k, Prefilling(e), t.pending[k]);
  }

  lemma GatedInTime(c: Config, s: State, k: Key, at: real)
    requires AllInTime(c, s) && k in s.pending && k !in s.planned && Prefilled(s.now, s.pending[k])
    ensures AllInTime(c, Gate(s, k, at))
  {
    hide Later; hide Moved; hide TakesItsTime; hide AllInTime;
    var t, st := Gate(s, k, at), Gated(NextEvent(s, at, DecodeStart, k));
    InTimeAt(c, s, k);
    MovedFields(s.alog, k, st);
    MovingOn(c, s.now, s.alog.since[k], s.alog.stage[k], s.pending[k], st);
    MoveInTime(c, s, t, k, st, s.pending[k]);
  }

  lemma BeginMoves(c: Config, s: State, k: Key, lease: Option<int>)
    requires k in s.pending && s.pending[k].spec.dNode in s.dNodes && BeginDecode(c, s, k, lease).Ok?
    ensures var t, item := BeginDecode(c, s, k, lease).value, s.pending[k];
            && t.now == s.now && t.planned == s.planned && t.alog.since == s.alog.since
            && t.pending == s.pending[k := item.(decodeStart := Some(s.now),
                                                 finish := Some(s.now + DecodeWork(c, item.spec.emittedTokens)))]
            && k in t.alog.stage && Started(t.alog.stage[k]) && t.alog.stage == s.alog.stage[k := t.alog.stage[k]]
  {
    hide Moved; hide DecodeWork;
    var item := s.pending[k];
    var e := if lease.Some? then NextEvent(s, s.now + DecodeWork(c, lease.value), LeaseBoundary, k)
             else NextEvent(s, s.now + DecodeWork(c, item.spec.emittedTokens), Completion, k);
    var st := if lease.Some? then Leased(e) else Completing(e);
    MovedFields(s.alog, k, st);
    assert BeginDecode(c, s, k, lease).value.alog.stage == s.alog.stage[k := st];
  }

  lemma BegunInTime(c: Config, s: State, k: Key, lease: Option<int>)
    requires AllInTime(c, s) && k in s.pending && k !in s.planned && Prefilled(s.now, s.pending[k])
    requires s.pending[k].spec.dNode in s.dNodes && BeginDecode(c, s, k, lease).Ok?
    ensures AllInTime(c, BeginDecode(c, s, k, lease).value)
  {
    hide Later; hide TakesItsTime; hide BeginDecode; hide AllInTime;
    var t := BeginDecode(c, s, k, lease).value;
    InTimeAt(c, s, k);
    BeginMoves(c, s, k, lease);
    Decoding(c, s.now, s.alog.since[k], s.alog.stage[k], s.pending[k], t.alog.stage[k], t.pending[k]);
    MoveInTime(c, s, t, k, t.alog.stage[k], t.pending[k]);
  }

  lemma ReleaseMoves(s: State, k: Key, n: string)
    requires n in s.pNodes && WaitersWait(s) && k in s.alog.stage && !s.alog.stage[k].Waiting?
    ensures var t := Release(s, k, n);
            && t.now == s.now && t.planned == s.planned && t.pending == s.pending && t.alog.since == s.alog.since
            && t.alog.stage == s.alog.stage[k := Stage.Prefilled] && t.dNodes == s.dNodes
            && t.pNodes.Keys == s.pNodes.Keys && t.pNodes[n].waiting == s.pNodes[n].waiting && WaitersWait(t)
  {
    hide Moved;
    MovedFields(s.alog, k, Stage.Prefilled);
  }

  /** The freed node may go to a waiting attempt. */
  lemma HandedInTime(c: Config, s: State, k: Key, n: string)
    requires AllInTime(c, s) && k in s.pending && k !in s.planned && n in s.pNodes && WaitersWait(s)
    requires !s.alog.stage[k].Waiting? && Prefilled(s.now, s.pending[k])
    ensures var t := HandOver(s, k, n);
            && AllInTime(c, t) && t.now == s.now && t.pending == s.pending && t.planned == s.planned && t.dNodes == s.dNodes
  {
    hide Later; hide TakesItsTime; hide Release; hide Dispatch; hide WaitersWait; hide LeastIndex; hide AllInTime;
    var t, w := Release(s, k, n), s.pNodes[n].waiting;
    InTimeAt(c, s, k);
    ReleaseMoves(s, k, n);
    MovingOn(c, s.now, s.alog.since[k], s.alog.stage[k], s.pending[k], Stage.Prefilled);
    MoveInTime(c, s, t, k, Stage.Prefilled, s.pending[k]);
    if w != [] {
      var at := Max(s.now, w[LeastIndex(w)].at);
      DispatchMoves(t, n, at);
      DispatchedInTime(c, t, n, at);
      DispatchLeavesDecode(t, n, at);
    }
  }

  lemma DispatchLeavesDecode(s: State, n: string, at: real)
    requires n in s.pNodes && s.pNodes[n].waiting != []
    ensures Dispatch(s, n, at).dNodes == s.dNodes
  {
    hide Moved; hide LeastIndex;
  }

  lemma FinishedInTime(c: Config, s: State, k: Key, fence: real, lease: Option<int>)
    requires AllInTime(c, s) && OnPrefillFinish(c, s, k, fence, lease).Ok? && WaitersWait(s)
    requires k !in s.planned && s.alog.stage[k].Prefilling? && s.alog.stage[k].event.at == s.now
    ensures AllInTime(c, OnPrefillFinish(c, s, k, fence, lease).value)
  {
    hide Later; hide HandOver; hide BeginDecode; hide Gate; hide WaitersWait; hide Priced; hide Max; hide AllInTime;
    var item := s.pending[k];
    InTimeAt(c, s, k);
    hide TakesItsTime;
    var t := HandOver(s, k, item.spec.pNode);
    HandedInTime(c, s, k, item.spec.pNode);
    var start := Max(s.now, Max(s.dNodes[item.spec.dNode].available, fence));
    if start > s.now { GatedInTime(c, t, k, start); } else { BegunInTime(c, t, k, lease); }
  }

  lemma WokenInTime(c: Config, s: State, k: Key, fence: real, lease: Option<int>)
    requires AllInTime(c, s) && OnDecodeStart(c, s, k, fence, lease).Ok? && k !in s.planned && s.alog.stage[k].Gated?
    ensures AllInTime(c, OnDecodeStart(c, s, k, fence, lease).value)
  {
    hide Later; hide BeginDecode; hide Gate; hide Priced; hide Max; hide AllInTime;
    var item := s.pending[k];
    InTimeAt(c, s, k);
    hide TakesItsTime;
    if item.decodeStart.None? {
      var start := Max(s.now, Max(s.dNodes[item.spec.dNode].available, fence));
      if start > s.now { GatedInTime(c, s, k, start); } else { BegunInTime(c, s, k, lease); }
    }
  }

  lemma {:induction false} WakeMoves(s: State, order: seq<Key>)
    ensures var t := Wake(s, order);
            t.now == s.now && t.planned == s.planned && t.pending == s.pending && t.alog == s.alog
  {
    WakeFields(s, order);
  }

  lemma CompleteMoves(s: State, k: Key, at: real)
    ensures var t := Complete(s, k, at);
            && t.now == s.now && t.planned == s.planned && t.pending == s.pending && t.alog.since == s.alog.since
            && t.alog.stage == s.alog.stage[k := Completing(NextEvent(s, at, Completion, k))]
  {
    hide Moved;
    MovedFields(s.alog, k, Completing(NextEvent(s, at, Completion, k)));
  }

  /** An abort leaves the attempt with the whole tokens it has decoded. */
  lemma AbortMoves(c: Config, s: State, k: Key, revised: Spec, order: seq<Key>)
    requires OnLeaseBoundary(c, s, k, revised, order).Ok? && revised.terminal.Aborted?
    ensures k in s.pending && s.pending[k].decodeStart.Some?
    ensures var t, item := OnLeaseBoundary(c, s, k, revised, order).value, s.pending[k];
            && t.now == s.now && t.planned == s.planned && t.alog.since == s.alog.since
            && k in t.alog.stage && t.alog.stage[k].Completing? && t.alog.stage == s.alog.stage[k := t.alog.stage[k]]
            && k in t.pending && t.pending == s.pending[k := t.pending[k]]
            && t.pending[k] == item.(spec := t.pending[k].spec, finish := Some(s.now))
            && t.pending[k].spec.emittedTokens as real * c.cost.decodePerToken == s.now - item.decodeStart.value
  {
    hide Wake; hide Complete; hide CutShort;
    var emitted := ElapsedTokens(s.now - s.pending[k].decodeStart.value, c.cost.decodePerToken);
    var ended := EndLease(s, k, revised, emitted.value);
    WakeMoves(ended, order);
    CompleteMoves(Wake(ended, order), k, s.now);
  }

  lemma BoundaryInTime(c: Config, s: State, k: Key, revised: Spec, order: seq<Key>)
    requires AllInTime(c, s) && OnLeaseBoundary(c, s, k, revised, order).Ok? && k !in s.planned && s.alog.stage[k].Leased?
    ensures AllInTime(c, OnLeaseBoundary(c, s, k, revised, order).value)
  {
    hide Later; hide Priced; hide AllInTime;
    var item := s.pending[k];
    InTimeAt(c, s, k);
    if revised.terminal.Aborted? {
      hide OnLeaseBoundary;
      AbortedInTime(c, s, k, revised, order);
    } else {
      hide TakesItsTime; hide Complete;
      var t := Complete(s, k, item.finish.value);
      CompleteMoves(s, k, item.finish.value);
      assert Prefilled(s.now, item) by { LateIsPrefilled(c, s.now, s.alog.since[k], s.alog.stage[k], item); }
      MovingOn(c, s.now, s.alog.since[k], s.alog.stage[k], item, t.alog.stage[k]);
      MoveInTime(c, s, t, k, t.alog.stage[k], item);
    }
  }

  lemma LateIsPrefilled(c: Config, now: real, since: real, st: Stage, item: Pending)
    requires TakesItsTime(c, now, since, st, item) && Late(st)
    ensures Prefilled(now, item)
  {
    hide Priced; hide Later;
  }

  lemma AbortedInTime(c: Config, s: State, k: Key, revised: Spec, order: seq<Key>)
    requires AllInTime(c, s) && OnLeaseBoundary(c, s, k, revised, order).Ok? && k !in s.planned
    requires revised.terminal.Aborted? && s.alog.stage[k].Leased?
    ensures AllInTime(c, OnLeaseBoundary(c, s, k, revised, order).value)
  {
    hide OnLeaseBoundary; hide AllInTime; hide TakesItsTime; hide Late;
    var t := OnLeaseBoundary(c, s, k, revised, order).value;
    AbortMoves(c, s, k, revised, order);
    InTimeAt(c, s, k);
    var item := s.pending[k];
    assert Late(s.alog.stage[k]) && Late(t.alog.stage[k]) by { LeasedIsLate(); }
    LateIsPrefilled(c, s.now, s.alog.since[k], s.alog.stage[k], item);
    Decoding(c, s.now, s.alog.since[k], s.alog.stage[k], item, t.alog.stage[k], t.pending[k]);
    MoveInTime(c, s, t, k, t.alog.stage[k], t.pending[k]);
  }

  lemma LeasedIsLate()
    ensures forall e :: Late(Leased(e)) && Late(Completing(e))
  {
  }

  lemma SettleMoves(s: State, k: Key, cache: map<string, set<string>>)
    ensures var t := Settle(s, k).(cache := cache);
            && t.now == s.now && t.planned == s.planned && t.pending == s.pending && t.alog.since == s.alog.since
            && t.issued == s.issued && t.alog.stage == s.alog.stage[k := Done]
  {
    hide Moved;
    MovedFields(s.alog, k, Done);
  }

  lemma CompletedInTime(c: Config, s: State, k: Key, m: Mutation, retry: Option<Spec>)
    requires AllInTime(c, s) && OnCompletion(c, s, k, m, retry).Ok? && k !in s.planned && s.alog.stage[k].Completing?
    requires s.issued == s.alog.stage.Keys
    ensures AllInTime(c, OnCompletion(c, s, k, m, retry).value)
  {
    hide Later; hide Priced; hide CacheAfter; hide Settle; hide Issue; hide AllInTime; hide TakesItsTime; hide ValidatePlan;
    var item := s.pending[k];
    InTimeAt(c, s, k);
    LateIsPrefilled(c, s.now, s.alog.since[k], s.alog.stage[k], item);
    var t := Settle(s, k).(cache := CacheAfter(c, s.cache, item, m).value);
    SettleMoves(s, k, t.cache);
    MovingOn(c, s.now, s.alog.since[k], s.alog.stage[k], item, Done);
    MoveInTime(c, s, t, k, Done, item);
    if !item.spec.terminal.Completed? && retry.Some? {
      LaterIsMax(s.now, retry.value.arrivalWork);
      NewKey(c, item.request, retry.value, s.issued);
      IssuedInTime(c, t, item.request, retry.value, Max(s.now, retry.value.arrivalWork), RetrySlot(c, k, s.now));
    }
  }

  lemma NewKey(c: Config, r: Request, spec: Spec, issued: set<Key>)
    requires ValidatePlan(c, r, spec, issued).None?
    ensures (spec.id, spec.index) !in issued && spec.arrivalWork >= r.arrivalWork
  {
  }

  lemma LaterIsMax(x: real, y: real)
    ensures Max(x, y) == Later(x, y)
  {
  }

  lemma ArrivedInTime(c: Config, s: State, r: Request, plans: seq<Spec>)
    requires AllInTime(c, s) && OnArrival(c, s, r, plans).Ok? && s.now == r.arrivalWork && s.issued == s.alog.stage.Keys
    ensures AllInTime(c, OnArrival(c, s, r, plans).value)
  {
    hide TakesItsTime; hide Issue;
    if plans != [] { IssuedInTime(c, s, r, plans[0], plans[0].arrivalWork, -1); }
  }

  // --- runs -----------------------------------------------------------------

  lemma SafeMeans(c: Config, w: map<string, Request>, s: State, k: Key)
    requires SafeBut(c, w, s, {k}, s.serial) && NoneIdle(s)
    ensures WaitersWait(s) && s.issued == s.alog.stage.Keys
    ensures k in s.planned <==> k in s.alog.stage && s.alog.stage[k].Planned?
    ensures k in s.planned ==> s.planned[k].decodeStart.None?
  {
    hide Staged; hide Timely; hide Slotted; hide Timed; hide Arriving; hide Finished; hide DecodePool; hide Held;
    hide Ordered; hide Proxied; hide Ran; hide KernelSafety.ReadyInTime; hide InOrder; hide PlacedAt; hide ItemFits;
    forall n, i | n in s.pNodes && 0 <= i < |s.pNodes[n].waiting|
      ensures s.pNodes[n].waiting[i].key in s.alog.stage && s.alog.stage[s.pNodes[n].waiting[i].key].Waiting?
    {
      assert NodeSafe(c, w, s.alog.stage, s.pending, s.now, n, s.pNodes[n], s.serial);
    }
  }

  /** Every step keeps every attempt in time. */
  lemma StepInTime(c: Config, w: map<string, Request>, s: State, e: Event, a: Answers)
    requires ValidConfig(c) && ValidRequests(w) && Safe(c, w, s) && AllInTime(c, s)
    requires e in s.queue && IsNext(s.queue, e) && Step(c, s, e, a).Ok?
    ensures AllInTime(c, Step(c, s, e, a).value)
  {
    hide PrefillPool; hide DecodePool; hide Tabled; hide Slotted; hide Timed; hide Arriving; hide Finished; hide Timely; hide IsNext;
    hide NoIdle; hide AllInTime; hide Handle;
    if e.payload.Arrives? {
      ArrivalInTime(c, w, s, e, a);
    } else {
      MainEventMeans(s.queue, s.alog.stage, e);
      if e.kind.DecodeStart? && Started(s.alog.stage[e.payload.key]) {
        DuplicateStepKeeps(c, w, s, e, a);
        ClockStaysInTime(c, s, e);
      } else {
        PopOwn(c, w, s, e);
        OwnStepInTime(c, w, s, e, a);
      }
    }
  }

  lemma ArrivalInTime(c: Config, w: map<string, Request>, s: State, e: Event, a: Answers)
    requires Safe(c, w, s) && AllInTime(c, s) && e in s.queue && IsNext(s.queue, e) && e.payload.Arrives?
    requires Step(c, s, e, a).Ok?
    ensures AllInTime(c, Step(c, s, e, a).value)
  {
    hide PrefillPool; hide DecodePool; hide AllInTime; hide OnArrival; hide Slotted; hide Staged; hide Timed; hide Finished;
    ArrivalMeans(c, w, s, e);
    assert s.issued == s.alog.stage.Keys;
    assert s.now <= e.at;
    ClockStaysInTime(c, s, e);
    ArrivedInTime(c, Pop(s, e), e.payload.request, a.plans);
  }

  lemma OwnStepInTime(c: Config, w: map<string, Request>, s: State, e: Event, a: Answers)
    requires Safe(c, w, s) && AllInTime(c, s) && e in s.queue && IsNext(s.queue, e) && Step(c, s, e, a).Ok?
    requires e.payload.Concerns? && e.payload.key in s.alog.stage && EventFits(e, s.alog.stage[e.payload.key])
    requires !e.kind.Arrival? && (e.kind.DecodeStart? ==> s.alog.stage[e.payload.key].Gated?)
    ensures AllInTime(c, Step(c, s, e, a).value)
  {
    hide Safe; hide SafeBut; hide IsNext; hide Enumerates; hide AllInTime; hide WaitersWait; hide NoneIdle;
    hide OnReady; hide OnPrefillStart; hide OnPrefillFinish; hide OnDecodeStart; hide OnLeaseBoundary; hide OnCompletion;
    PopOwn(c, w, s, e);
    var k, t := e.payload.key, Pop(s, e);
    SafeMeans(c, w, t, k);
    ClockStaysInTime(c, s, e);
    match e.kind
    case AttemptReady => ReadyInTime(c, t, k);
    case PrefillStart => StartedInTime(c, t, k);
    case PrefillFinish => FinishedInTime(c, t, k, a.fence, a.leaseTokens);
    case DecodeStart => WokenInTime(c, t, k, a.fence, a.leaseTokens);
    case LeaseBoundary => BoundaryInTime(c, t, k, a.revised, a.wakeOrder);
    case Completion => CompletedInTime(c, t, k, a.mutation, a.retry);
  }

  /** In every state of every run, whatever the policy answers, each attempt has taken exactly the
      time its plan, its prompt and its output account for. */
  lemma {:induction false} EveryAttemptTakesItsTime(c: Config, workload: seq<Request>, states: seq<State>,
                                                    turns: seq<Turn>, n: nat)
    requires ValidConfig(c) && ValidWorkload(c, workload) && IsRun(c, states, turns) && n <= |turns|
    requires states[0] == Initial(c, workload)
    ensures AllInTime(c, states[n])
  {
    hide Safe; hide Step; hide ValidRequest; hide ById; hide ListsSleepers; hide ValidConfig; hide ValidRequests;
    if n > 0 {
      EveryAttemptTakesItsTime(c, workload, states, turns, n - 1);
      EveryRunIsSafe(c, workload, states, turns, n - 1);
      InitialIsSafe(c, workload);
      assert Legal(c, states[n - 1], turns[n - 1]);
      StepInTime(c, ById(workload), states[n - 1], turns[n - 1].event, turns[n - 1].answers);
    }
  }
}
