/** Each handler of the kernel keeps the invariant. */
module KernelHandlers {
  import opened Options
  import opened KernelModel
  import opened KernelSteps
  import opened KernelSafety
  import opened KernelInvariant

  lemma TableKeys(c: Config, w: map<string, Request>, planned: map<Key, Pending>, pending: map<Key, Pending>,
                  issued: set<Key>, stage: map<Key, Stage>, k: Key)
    requires Tabled(c, w, planned, pending, issued, stage)
    ensures issued == stage.Keys
    ensures k in planned <==> k in stage && stage[k].Planned?
    ensures k in pending <==> k in stage && !stage[k].Planned?
    ensures k in planned ==> ItemFits(c, w, k, planned[k])
                             && planned[k] == NewPending(planned[k].request, planned[k].spec)
    ensures k in pending ==> ItemFits(c, w, k, pending[k])
    ensures k in pending && !Ended(stage[k]) ==> pending[k].spec == pending[k].plan
  {
  }

  lemma TableIssues(c: Config, w: map<string, Request>, planned: map<Key, Pending>, pending: map<Key, Pending>,
                    issued: set<Key>, stage: map<Key, Stage>, k: Key, r: Request, spec: Spec, st: Stage)
    requires Tabled(c, w, planned, pending, issued, stage) && k !in stage && st.Planned?
    requires ItemFits(c, w, k, NewPending(r, spec))
    ensures Tabled(c, w, planned[k := NewPending(r, spec)], pending, issued + {k}, stage[k := st])
  {
  }

  lemma TableReadies(c: Config, w: map<string, Request>, planned: map<Key, Pending>, pending: map<Key, Pending>,
                     issued: set<Key>, stage: map<Key, Stage>, k: Key, item: Pending)
    requires Tabled(c, w, planned, pending, issued, stage) && k in planned
    requires ItemFits(c, w, k, item) && item.spec == item.plan
    ensures Tabled(c, w, planned - {k}, pending[k := item], issued, stage[k := Waiting])
  {
  }

  ghost predicate NoneIdle(s: State) {
    forall n :: n in s.pNodes ==> NoIdle(s.pNodes[n])
  }

  /** No request still to arrive is called `id`. */
  predicate Arrived(queue: set<Event>, id: string) {
    forall e :: e in queue && e.payload.Arrives? ==> e.payload.request.id != id
  }

  /** The request has no attempt left, and whatever overtime it took was no later than now. */
  ghost predicate Vacant(c: Config, s: State, id: string) {
    && (forall j :: j in s.alog.stage && j.0 == id ==> s.alog.stage[j].Done?)
    && (forall x :: x in s.alog.owner && x.0 == id && x.1 >= c.retryBudget ==> x.1 >= OvertimeSlot(c, s.now))
  }

  lemma VacantIssues(c: Config, s: State, k: Key, st: Stage, slot: int)
    requires Timed(c, s.now, s.alog.stage, s.pending, s.alog.since, s.alog.owner) && Vacant(c, s, k.0)
    requires k !in s.alog.stage && k !in s.pending
    requires slot >= c.retryBudget ==> slot >= OvertimeSlot(c, s.now)
    ensures Timed(c, s.now, s.alog.stage[k := st], s.pending, s.alog.since[k := s.now], s.alog.owner[(k.0, slot) := k])
  {
    hide Timed; hide OvertimeSlot;
    TimedIssues(c, s.now, s.alog.stage, s.pending, s.alog.since, s.alog.owner, k, st, slot);
  }

  lemma IssueKeeps(c: Config, w: map<string, Request>, s: State, r: Request, spec: Spec, at: real, slot: int)
    requires SafeBut(c, w, s, {}, s.serial) && r.id in w && w[r.id] == r && Arrived(s.queue, r.id)
    requires ValidatePlan(c, r, spec, s.issued).None? && s.now <= at
    requires -1 <= slot < OvertimeSlot(c, c.observationStart) && (r.id, slot) !in s.alog.owner
    requires 0 <= slot < c.retryBudget ==> (r.id, slot) in s.alog.stage && s.alog.stage[(r.id, slot)].Done?
    requires Vacant(c, s, r.id)
    requires slot >= c.retryBudget ==> slot >= OvertimeSlot(c, s.now)
    ensures SafeBut(c, w, Issue(s, r, spec, at, slot), {}, s.serial + 1)
    ensures (r.id, slot) in s.alog.rank && s.alog.rank[(r.id, slot)] == UNISSUED
  {
    hide Timely; hide Staged; hide Tabled; hide Slotted; hide Timed; hide Arriving; hide Finished; hide PrefillPool; hide DecodePool;
    hide Rank; hide Vacant; hide OvertimeSlot; hide Cached;
    var k, stage := (spec.id, spec.index), s.alog.stage;
    var e := NextEvent(s, at, AttemptReady, k);
    TableKeys(c, w, s.planned, s.pending, s.issued, stage, k);
    Pushed(s.now, s.queue, s.serial, e);
    Enter(s.queue, stage, {}, k, Planned(e));
    TableIssues(c, w, s.planned, s.pending, s.issued, stage, k, r, spec, Planned(e));
    SlotIssues(c, w, s.alog, k, slot, Planned(e));
    VacantIssues(c, s, k, Planned(e), slot);
    ArrivalsStay(w, s.queue, stage, e, k, Planned(e));
    StillFinished(stage, s.alog.completed, k, Planned(e));
    PlannedPools(c, w, s, k, Planned(e));
    assert {} - {k} == {};
  }

  /** A planned attempt is on no node yet. */
  lemma PlannedPools(c: Config, w: map<string, Request>, s: State, k: Key, st: Stage)
    requires PrefillPool(c, w, s.alog.stage, s.pending, s.now, s.pNodes, s.serial)
    requires DecodePool(c, s.alog.stage, s.pending, s.alog.position, s.now, s.dNodes)
    requires k !in s.alog.stage && k !in s.pending && st.Planned?
    ensures PrefillPool(c, w, s.alog.stage[k := st], s.pending, s.now, s.pNodes, s.serial + 1)
    ensures DecodePool(c, s.alog.stage[k := st], s.pending, s.alog.position, s.now, s.dNodes)
  {
    hide PrefillPool; hide DecodePool;
    PrefillPoolFrame(c, w, s, s.alog.stage[k := st], s.pending, s.now, s.serial, s.serial + 1);
    DecodePoolFrame(c, s, s.alog.stage[k := st], s.pending, s.now, k);
  }

  /** The common part of every move of an attempt to a stage with an event of its own. */
  lemma MoveKeeps(c: Config, w: map<string, Request>, s: State, t: State, loose: set<Key>, k: Key, st: Stage,
                  item: Pending, bound: nat)
    requires Kept(c, w, s, loose) && k in loose && k in s.pending && ItemFits(c, w, k, item)
    requires !Ended(st) ==> item.spec == item.plan
    requires item.decodeStart == s.pending[k].decodeStart || item.decodeStart == Some(s.now)
    requires HasEvent(st) && !st.Planned? && !s.alog.stage[k].Done?
    requires Late(s.alog.stage[k]) ==> Late(st)
    requires st.event == Event(st.event.at, KindOf(st), s.serial, Concerns(k)) && s.now <= st.event.at
    requires t.now == s.now && t.queue == s.queue + {st.event} && t.serial == s.serial + 1
    requires t.planned == s.planned && t.pending == s.pending[k := item] && t.issued == s.issued && t.cache == s.cache
    requires t.alog.(position := s.alog.position) == Moved(s.alog, k, st)
    requires PrefillPool(c, w, t.alog.stage, t.pending, t.now, t.pNodes, bound)
    requires DecodePool(c, t.alog.stage, t.pending, t.alog.position, t.now, t.dNodes)
    ensures SafeBut(c, w, t, loose - {k}, bound)
  {
    hide Timely; hide Staged; hide Tabled; hide Slotted; hide Timed; hide Arriving; hide Finished; hide PrefillPool; hide DecodePool;
    hide Rank; hide Moved; hide ItemFits; hide Late;
    var stage := s.alog.stage;
    TableKeys(c, w, s.planned, s.pending, s.issued, stage, k);
    Pushed(s.now, s.queue, s.serial, st.event);
    Enter(s.queue, stage, loose, k, st);
    TableMoves(c, w, s.planned, s.pending, s.issued, stage, k, item, st);
    SlotMoves(c, w, s.alog, k, st);
    ArrivalsStay(w, s.queue, stage, st.event, k, st);
    StillFinished(stage, s.alog.completed, k, st);
    TimedMoves(c, s.now, stage, s.pending, s.alog.since, s.alog.owner, k, st, item);
  }

  lemma GateKeeps(c: Config, w: map<string, Request>, s: State, k: Key, at: real)
    requires SafeBut(c, w, s, {k}, s.serial) && k in s.pending && s.now <= at
    requires s.alog.stage[k].Prefilled? || s.alog.stage[k].Gated?
    ensures SafeBut(c, w, Gate(s, k, at), {}, s.serial + 1)
  {
    hide Timely; hide Staged; hide Tabled; hide Slotted; hide Timed; hide Arriving; hide Finished; hide PrefillPool; hide DecodePool;
    hide Rank; hide ItemFits;
    var stage := s.alog.stage;
    var e := NextEvent(s, at, DecodeStart, k);
    TableKeys(c, w, s.planned, s.pending, s.issued, stage, k);
    SlotMoves(c, w, s.alog, k, Gated(e));
    assert s.pending[k := s.pending[k]] == s.pending;
    LeavePool(c, w, s, k, Gated(e), s.pending[k], s.serial + 1);
    UndecodedFrame(c, s, k, Gated(e), s.pending[k]);
    SafeBound(c, w, s, {k}, s.serial, s.serial + 1);
    MoveKeeps(c, w, s, Gate(s, k, at), {k}, k, Gated(e), s.pending[k], s.serial + 1);
    assert {k} - {k} == {};
  }

  lemma SafeBound(c: Config, w: map<string, Request>, s: State, loose: set<Key>, bound: nat, bound': nat)
    requires SafeBut(c, w, s, loose, bound) && bound <= bound'
    ensures SafeBut(c, w, s, loose, bound')
  {
    hide Timely; hide Staged; hide Tabled; hide Slotted; hide Timed; hide Arriving; hide Finished; hide PrefillPool; hide DecodePool;
    PrefillPoolFrame(c, w, s, s.alog.stage, s.pending, s.now, bound, bound');
  }

  /** A node that is free is booked, and the attempt starts decoding. */
  lemma BeginKeeps(c: Config, w: map<string, Request>, s: State, k: Key, lease: Option<int>)
    requires ValidConfig(c) && SafeBut(c, w, s, {k}, s.serial) && k in s.pending
    requires s.alog.stage[k].Prefilled? || s.alog.stage[k].Gated?
    requires s.pending[k].spec.dNode in s.dNodes
    requires BeginDecode(c, s, k, lease).Ok?
    ensures SafeBut(c, w, BeginDecode(c, s, k, lease).value, {}, s.serial + 1)
  {
    hide Timely; hide Staged; hide Tabled; hide Slotted; hide Timed; hide Arriving; hide Finished; hide PrefillPool; hide DecodePool;
    hide Rank; hide DecodeWork; hide LeaseAligned; hide NodeSafe; hide ItemFits; hide Cached; hide Moved;
    var stage, item0, t := s.alog.stage, s.pending[k], BeginDecode(c, s, k, lease).value;
    var finish := s.now + DecodeWork(c, item0.spec.emittedTokens);
    var item := item0.(decodeStart := Some(s.now), finish := Some(finish));
    var at := if lease.Some? then s.now + DecodeWork(c, lease.value) else finish;
    var e := NextEvent(s, at, if lease.Some? then LeaseBoundary else Completion, k);
    var st := if lease.Some? then Leased(e) else Completing(e);
    DecodeTimes(c, s.now, item, lease);
    TableKeys(c, w, s.planned, s.pending, s.issued, stage, k);
    PlanStillFits(c, w, k, item0, item);
    SlotMoves(c, w, s.alog, k, st);
    BookPool(c, stage, s.pending, s.alog.position, s.now, s.dNodes, k, st, item);
    LeavePool(c, w, s, k, st, item, s.serial + 1);
    SafeBound(c, w, s, {k}, s.serial, s.serial + 1);
    MoveKeeps(c, w, s, t, {k}, k, st, item, s.serial + 1);
    assert {k} - {k} == {};
  }

  lemma LeavePool(c: Config, w: map<string, Request>, s: State, k: Key, st: Stage, item: Pending, bound: nat)
    requires PrefillPool(c, w, s.alog.stage, s.pending, s.now, s.pNodes, s.serial)
    requires k in s.alog.stage && k in s.pending && Late(st)
    requires s.alog.stage[k].Prefilled? || Late(s.alog.stage[k])
    requires SamePrefill(s.pending[k], item) && item.plan == s.pending[k].plan && s.serial <= bound
    ensures PrefillPool(c, w, s.alog.stage[k := st], s.pending[k := item], s.now, s.pNodes, bound)
  {
    hide NodeSafe; hide PrefillPool;
    PrefillPoolFrame(c, w, s, s.alog.stage[k := st], s.pending[k := item], s.now, s.serial, bound);
  }

  lemma DecodeTimes(c: Config, now: real, item: Pending, lease: Option<int>)
    requires ValidConfig(c) && item.decodeStart == Some(now)
    requires item.finish == Some(now + DecodeWork(c, item.spec.emittedTokens))
    requires lease.Some? ==> 0 < lease.value < item.spec.emittedTokens
    ensures now <= item.finish.value
    ensures lease.Some? ==> now <= now + DecodeWork(c, lease.value)
                            && LeaseAligned(c, item, now + DecodeWork(c, lease.value))
  {
    ScaledBetween(0, item.spec.emittedTokens, c.cost.decodePerToken);
    if lease.Some? {
      ScaledBetween(0, lease.value, c.cost.decodePerToken);
    }
  }

  lemma StartPrefillKeeps(c: Config, w: map<string, Request>, s: State, k: Key)
    requires ValidConfig(c) && ValidRequests(w) && SafeBut(c, w, s, {k}, s.serial) && NoneIdle(s)
    requires k in s.pending && s.alog.stage[k].Scheduled?
    ensures OnPrefillStart(c, s, k).Ok? && Safe(c, w, OnPrefillStart(c, s, k).value)
  {
    hide Timely; hide Staged; hide Tabled; hide Slotted; hide Timed; hide Arriving; hide Finished; hide PrefillPool; hide DecodePool;
    hide Rank; hide Priced; hide QueueWork; hide WorkOf; hide EntryKeys; hide AllPending;
    var stage := s.alog.stage;
    TableKeys(c, w, s.planned, s.pending, s.issued, stage, k);
    var n := s.pending[k].spec.pNode;
    QueueIsPending(c, w, s, k);
    var begun := s.pending[k].(prefillStart := Some(s.now));
    PricedWithinPrompt(c, begun, s.cache);
    PricedFields(c, begun, s.cache);
    var priced := Priced(c, begun, s.cache);
    var finish := s.now + priced.prefillWork + priced.kvsWork;
    var item := priced.(prefillFinish := Some(finish));
    var e := NextEvent(s, finish, PrefillFinish, k);
    SlotMoves(c, w, s.alog, k, Prefilling(e));
    StartPool(c, w, stage, s.pending, s.now, s.pNodes, s.serial, k, item, e);
    UndecodedFrame(c, s, k, Prefilling(e), item);
    MoveKeeps(c, w, s, StartPrefill(c, s, k), {k}, k, Prefilling(e), item, s.serial);
    assert {k} - {k} == {};
    SafeBound(c, w, StartPrefill(c, s, k), {}, s.serial, s.serial + 1);
  }

  lemma PricedFields(c: Config, item: Pending, cache: map<string, set<string>>)
    requires item.spec.pNode in cache
    ensures var p := Priced(c, item, cache);
            p == item.(prefillWork := p.prefillWork, kvsWork := p.kvsWork, kvsBytes := p.kvsBytes)
  {
  }

  lemma UndecodedFrame(c: Config, s: State, k: Key, st: Stage, item: Pending)
    requires DecodePool(c, s.alog.stage, s.pending, s.alog.position, s.now, s.dNodes)
    requires k in s.alog.stage && k in s.pending && !Started(s.alog.stage[k]) && !Started(st)
    requires item.decodeStart == s.pending[k].decodeStart && item.plan == s.pending[k].plan
    requires item.spec == s.pending[k].spec
    ensures DecodePool(c, s.alog.stage[k := st], s.pending[k := item], s.alog.position, s.now, s.dNodes)
  {
    assert Decoding(c, s.alog.stage[k], s.pending[k], s.alog.position, s.dNodes, k);
    DecodePoolFrame(c, s, s.alog.stage[k := st], s.pending[k := item], s.now, k);
  }

  /** The waiting heap of the attempt's node holds pending attempts of the workload, so the
      proxy recomputed at a prefill start is the work of exactly those. */
  lemma {:induction false} QueueIsPending(c: Config, w: map<string, Request>, s: State, k: Key)
    requires SafeBut(c, w, s, {k}, s.serial) && k in s.pending && !Ended(s.alog.stage[k])
    ensures var n := s.pending[k].spec.pNode;
            && n in s.pNodes && n in s.cache && AllPending(s.pending, s.pNodes[n].waiting)
            && QueueWork(c, s.pending, s.pNodes[n].waiting) == WorkOf(c, w, EntryKeys(s.pNodes[n].waiting))
  {
    hide Timely; hide Staged; hide Slotted; hide Timed; hide Arriving; hide Finished; hide DecodePool; hide PlacedAt;
    hide Ordered; hide Proxied; hide Ran; hide Held; hide InOrder; hide EntryKeys; hide WorkOf; hide QueueWork;
    var n := s.pending[k].spec.pNode;
    assert NodeSafe(c, w, s.alog.stage, s.pending, s.now, n, s.pNodes[n], s.serial);
    QueueWorkIs(c, w, s.pending, s.pNodes[n].waiting);
  }

  lemma LooseMoves(queue: set<Event>, stage: map<Key, Stage>, k: Key)
    requires Staged(queue, stage, {k}) && k in stage && stage[k].Prefilling?
    ensures Staged(queue, stage[k := Prefilled], {k})
  {
  }

  /** The finished prefill gives its node back. */
  lemma ReleaseKeeps(c: Config, w: map<string, Request>, s: State, k: Key)
    requires SafeBut(c, w, s, {k}, s.serial) && k in s.pending && s.alog.stage[k].Prefilling?
    requires s.alog.stage[k].event.at <= s.now
    ensures s.pending[k].spec.pNode in s.pNodes
    ensures SafeBut(c, w, Release(s, k, s.pending[k].spec.pNode), {k}, s.serial)
  {
    hide Timely; hide Staged; hide Tabled; hide Slotted; hide Timed; hide Arriving; hide Finished; hide PrefillPool; hide DecodePool;
    hide Rank; hide ItemFits; hide NodeSafe;
    var stage := s.alog.stage;
    TableKeys(c, w, s.planned, s.pending, s.issued, stage, k);
    LooseMoves(s.queue, stage, k);
    SlotMoves(c, w, s.alog, k, Prefilled);
    assert s.pending[k := s.pending[k]] == s.pending;
    TableMoves(c, w, s.planned, s.pending, s.issued, stage, k, s.pending[k], Prefilled);
    TimedMoves(c, s.now, stage, s.pending, s.alog.since, s.alog.owner, k, Prefilled, s.pending[k]);
    ArrivalsStay(w, s.queue, stage, NextEvent(s, s.now, Completion, k), k, Prefilled);
    StillFinished(stage, s.alog.completed, k, Prefilled);
    FreePool(c, w, stage, s.pending, s.now, s.pNodes, s.serial, k);
    UndecodedFrame(c, s, k, Prefilled, s.pending[k]);
  }

  /** A free node with a queue takes its front. */
  lemma DispatchKeepsSafe(c: Config, w: map<string, Request>, s: State, loose: set<Key>, n: string, at: real, bound: nat)
    requires SafeBut(c, w, s, loose, bound) && n in s.pNodes && s.now <= at
    requires !s.pNodes[n].busy && s.pNodes[n].waiting != []
    requires s.pNodes[n].waiting[0].key !in loose
    ensures SafeBut(c, w, Dispatch(s, n, at), loose, bound)
    ensures s.pNodes[n].waiting[LeastIndex(s.pNodes[n].waiting)].key in s.alog.stage
    ensures s.alog.stage[s.pNodes[n].waiting[LeastIndex(s.pNodes[n].waiting)].key].Waiting?
  {
    hide Timely; hide Staged; hide Tabled; hide Slotted; hide Timed; hide Arriving; hide Finished; hide PrefillPool; hide DecodePool;
    hide Rank; hide NodeSafe; hide Dispatched; hide LeastIndex;
    var stage, k := s.alog.stage, s.pNodes[n].waiting[0].key;
    var e := NextEvent(s, at, PrefillStart, k);
    DispatchPool(c, w, stage, s.pending, s.now, s.pNodes, bound, n, e);
    TableKeys(c, w, s.planned, s.pending, s.issued, stage, k);
    Loosen(s.queue, stage, loose, k);
    SlotMoves(c, w, s.alog, k, Scheduled(e));
    assert s.pending[k := s.pending[k]] == s.pending;
    UndecodedFrame(c, s, k, Scheduled(e), s.pending[k]);
    MoveKeeps(c, w, s, Dispatch(s, n, at), loose + {k}, k, Scheduled(e), s.pending[k], bound);
    assert loose + {k} - {k} == loose;
  }

  /** A loose attempt comes to rest in a stage without an event. */
  lemma RestLoose(queue: set<Event>, stage: map<Key, Stage>, k: Key, st: Stage)
    requires Staged(queue, stage, {k}) && k in stage && (st.Waiting? || st.Done?)
    requires Late(stage[k]) ==> Late(st)
    ensures Staged(queue, stage[k := st], {})
  {
    Rest(queue, stage, {k}, k, st);
    assert {k} - {k} == {};
  }

  lemma EnqueueKeeps(c: Config, w: map<string, Request>, s: State, k: Key)
    requires SafeBut(c, w, s, {k}, s.serial) && k in s.planned
    ensures s.planned[k].spec.pNode in s.pNodes
    ensures SafeBut(c, w, Enqueue(c, s, k), {}, s.serial + 1)
  {
    hide Timely; hide Staged; hide Tabled; hide Slotted; hide Timed; hide Arriving; hide Finished; hide PrefillPool; hide DecodePool;
    hide Rank; hide NodeSafe; hide Joined; hide MaximumPrefillWork;
    var stage := s.alog.stage;
    TableKeys(c, w, s.planned, s.pending, s.issued, stage, k);
    var item := s.planned[k].(attemptReady := Some(s.now));
    PoolKeys(c, w, stage, s.pending, s.now, s.pNodes, s.serial);
    RestLoose(s.queue, stage, k, Waiting);
    SlotMoves(c, w, s.alog, k, Waiting);
    TableReadies(c, w, s.planned, s.pending, s.issued, stage, k, item);
    TimedMoves(c, s.now, stage, s.pending, s.alog.since, s.alog.owner, k, Waiting, item);
    ArrivalsStay(w, s.queue, stage, NextEvent(s, s.now, Completion, k), k, Waiting);
    StillFinished(stage, s.alog.completed, k, Waiting);
    JoinPool(c, w, stage, s.pending, s.now, s.pNodes, s.serial, k, item);
    DecodePoolFrame(c, s, stage[k := Waiting], s.pending[k := item], s.now, k);
  }

  lemma PoolKeys(c: Config, w: map<string, Request>, stage: map<Key, Stage>, pending: map<Key, Pending>, now: real,
                 pNodes: map<string, PNode>, bound: nat)
    requires PrefillPool(c, w, stage, pending, now, pNodes, bound)
    ensures pNodes.Keys == c.prefillNodes
    ensures forall n :: n in pNodes ==> pNodes[n].busy == pNodes[n].holder.Some?
  {
    forall n | n in pNodes ensures pNodes[n].busy == pNodes[n].holder.Some? {
      assert NodeSafe(c, w, stage, pending, now, n, pNodes[n], bound);
    }
  }

  lemma SerialGrows(c: Config, w: map<string, Request>, s: State, bound: nat)
    requires SafeBut(c, w, s, {}, bound)
    ensures SafeBut(c, w, s.(serial := s.serial + 1), {}, bound)
  {
    hide Staged; hide Tabled; hide Slotted; hide Timed; hide Arriving; hide Finished; hide PrefillPool; hide DecodePool;
  }

  lemma OnReadyKeeps(c: Config, w: map<string, Request>, s: State, k: Key)
    requires SafeBut(c, w, s, {k}, s.serial) && NoneIdle(s) && k in s.planned
    ensures OnReady(c, s, k).Ok? && Safe(c, w, OnReady(c, s, k).value)
  {
    hide SafeBut; hide LeastIndex; hide MaximumPrefillWork; hide Moved;
    EnqueueKeeps(c, w, s, k);
    var n, t := s.planned[k].spec.pNode, Enqueue(c, s, k);
    if s.pNodes[n].busy {
      SerialGrows(c, w, t, s.serial + 1);
    } else {
      DispatchKeepsSafe(c, w, t, {}, n, s.now, s.serial + 1);
    }
  }

  lemma DispatchFields(s: State, n: string, at: real)
    requires n in s.pNodes && s.pNodes[n].waiting != []
    ensures var t := Dispatch(s, n, at);
            && t.now == s.now && t.pending == s.pending && t.dNodes == s.dNodes && t.serial == s.serial + 1
            && t.pNodes == s.pNodes[n := Dispatched(s.pNodes[n])]
            && t.alog == Moved(s.alog, s.pNodes[n].waiting[LeastIndex(s.pNodes[n].waiting)].key,
                               Scheduled(NextEvent(s, at, PrefillStart,
                                                   s.pNodes[n].waiting[LeastIndex(s.pNodes[n].waiting)].key)))
            && Dispatched(s.pNodes[n]).busy
  {
  }

  lemma ReleaseFields(s: State, k: Key, n: string)
    requires n in s.pNodes
    ensures var t := Release(s, k, n);
            && t.now == s.now && t.pending == s.pending && t.dNodes == s.dNodes && t.serial == s.serial
            && t.pNodes == s.pNodes[n := t.pNodes[n]] && n in t.pNodes && t.pNodes[n].waiting == s.pNodes[n].waiting
            && !t.pNodes[n].busy && k in t.alog.stage && t.alog.stage[k].Prefilled?
  {
  }

  lemma MovedElsewhere(log: AttemptLog, j: Key, st: Stage, k: Key)
    requires j != k && k in log.stage
    ensures k in Moved(log, j, st).stage && Moved(log, j, st).stage[k] == log.stage[k]
  {
  }

  /** The handover leaves no node idle and frees nothing else. */
  lemma HandOverKeeps(c: Config, w: map<string, Request>, s: State, k: Key)
    requires SafeBut(c, w, s, {k}, s.serial) && NoneIdle(s) && k in s.pending && s.alog.stage[k].Prefilling?
    requires s.alog.stage[k].event.at <= s.now
    ensures s.pending[k].spec.pNode in s.pNodes
    ensures var t := HandOver(s, k, s.pending[k].spec.pNode);
            && SafeBut(c, w, t, {k}, t.serial) && NoneIdle(t)
            && k in t.alog.stage && t.alog.stage[k].Prefilled? && t.pending == s.pending && t.dNodes == s.dNodes && t.now == s.now
  {
    hide SafeBut; hide LeastIndex; hide Rank; hide Dispatch; hide Dispatched; hide Release; hide Moved;
    ReleaseKeeps(c, w, s, k);
    var n := s.pending[k].spec.pNode;
    var t := Release(s, k, n);
    ReleaseFields(s, k, n);
    var q := s.pNodes[n].waiting;
    if q != [] {
      FrontWaits(c, w, t, k, n);
      DispatchKeepsSafe(c, w, t, {k}, n, Max(s.now, q[LeastIndex(q)].at), t.serial);
      DispatchFields(t, n, Max(s.now, q[LeastIndex(q)].at));
      MovedElsewhere(t.alog, q[LeastIndex(q)].key, Scheduled(NextEvent(t, Max(s.now, q[LeastIndex(q)].at), PrefillStart,
                                                                       q[LeastIndex(q)].key)), k);
      SafeBound(c, w, HandOver(s, k, n), {k}, t.serial, t.serial + 1);
    }
  }

  lemma FrontWaits(c: Config, w: map<string, Request>, s: State, k: Key, n: string)
    requires SafeBut(c, w, s, {k}, s.serial) && n in s.pNodes && s.pNodes[n].waiting != []
    requires k in s.alog.stage && s.alog.stage[k].Prefilled?
    ensures s.pNodes[n].waiting[0].key != k
  {
    hide Timely; hide Staged; hide Tabled; hide Slotted; hide Timed; hide Arriving; hide Finished; hide DecodePool; hide PlacedAt;
    hide Ordered; hide Proxied; hide Ran; hide Held; hide InOrder;
    assert NodeSafe(c, w, s.alog.stage, s.pending, s.now, n, s.pNodes[n], s.serial);
  }

  lemma OnPrefillFinishKeeps(c: Config, w: map<string, Request>, s: State, k: Key, fence: real, lease: Option<int>)
    requires ValidConfig(c) && SafeBut(c, w, s, {k}, s.serial) && NoneIdle(s)
    requires k in s.pending && s.alog.stage[k].Prefilling? && s.alog.stage[k].event.at <= s.now
    requires OnPrefillFinish(c, s, k, fence, lease).Ok?
    ensures Safe(c, w, OnPrefillFinish(c, s, k, fence, lease).value)
  {
    hide SafeBut; hide HandOver;
    HandOverKeeps(c, w, s, k);
    var t := HandOver(s, k, s.pending[k].spec.pNode);
    var start := Max(s.now, Max(s.dNodes[s.pending[k].spec.dNode].available, fence));
    if start > s.now {
      GateKeeps(c, w, t, k, start);
    } else {
      BeginKeeps(c, w, t, k, lease);
    }
  }

  lemma OnDecodeStartKeeps(c: Config, w: map<string, Request>, s: State, k: Key, fence: real, lease: Option<int>)
    requires ValidConfig(c) && SafeBut(c, w, s, {k}, s.serial) && NoneIdle(s)
    requires k in s.pending && s.alog.stage[k].Gated? && s.pending[k].decodeStart.None?
    requires OnDecodeStart(c, s, k, fence, lease).Ok?
    ensures Safe(c, w, OnDecodeStart(c, s, k, fence, lease).value)
  {
    hide SafeBut;
    var start := Max(s.now, Max(s.dNodes[s.pending[k].spec.dNode].available, fence));
    if start > s.now {
      GateKeeps(c, w, s, k, start);
    } else {
      BeginKeeps(c, w, s, k, lease);
    }
  }

  // --- lease boundaries -----------------------------------------------------

  lemma {:induction false} WakeFields(s: State, order: seq<Key>)
    ensures var t := Wake(s, order); t == s.(queue := t.queue, serial := t.serial) && t.serial == s.serial + |order|
    decreases |order|
  {
    if order != [] {
      WakeFields(s, order[..|order| - 1]);
    }
  }

  /** Waking sleeping attempts adds duplicate events, and nothing else. */
  lemma {:induction false} WakeKeeps(s: State, order: seq<Key>, loose: set<Key>, w: map<string, Request>)
    requires Timely(s.now, s.queue, s.serial) && Staged(s.queue, s.alog.stage, loose)
    requires Arriving(w, s.queue, s.alog.stage)
    requires forall k :: k in order ==> k in s.alog.stage && Late(s.alog.stage[k])
    ensures var t := Wake(s, order);
            && Timely(s.now, t.queue, t.serial) && Staged(t.queue, s.alog.stage, loose)
            && Arriving(w, t.queue, s.alog.stage)
    decreases |order|
  {
    hide Timely; hide Staged; hide Arriving;
    if order != [] {
      var k, front := order[|order| - 1], order[..|order| - 1];
      WakeKeeps(s, front, loose, w);
      WakeFields(s, front);
      var t := Wake(s, front);
      var e := NextEvent(t, s.now, DecodeStart, k);
      Pushed(s.now, t.queue, t.serial, e);
      Duplicate(t.queue, s.alog.stage, loose, e);
      ArrivalsStay(w, t.queue, s.alog.stage, e, k, s.alog.stage[k]);
    }
  }

  /** A sleeping attempt is waiting for its D node. */
  lemma SleepersAreLate(c: Config, w: map<string, Request>, s: State, n: string, order: seq<Key>, loose: set<Key>)
    requires Staged(s.queue, s.alog.stage, loose) && Enumerates(s, n, order)
    ensures forall k :: k in order ==> k in s.alog.stage && Late(s.alog.stage[k])
  {
    forall k | k in order ensures k in s.alog.stage && Late(s.alog.stage[k]) {
      assert Sleeping(s, n, k);
      var e :| e in s.queue && e.kind.DecodeStart? && e.at > s.now && e.payload == Concerns(k);
    }
  }

  /** `order` lists exactly the attempts an abort of `k` wakes. */
  ghost predicate WakesSleepers(s: State, k: Key, revised: Spec, order: seq<Key>)
    requires k in s.pending
  {
    Enumerates(EndLease(s, k, revised, 0), revised.dNode, order)
  }

  lemma {:induction false} AbortKeeps(c: Config, w: map<string, Request>, s: State, k: Key, revised: Spec,
                                      emitted: nat, order: seq<Key>)
    requires SafeBut(c, w, s, {k}, s.serial) && NoneIdle(s)
    requires k in s.pending && k in s.alog.stage && s.alog.stage[k].Leased?
    requires WakesSleepers(s, k, revised, order) && revised.terminal.Aborted? && c.cost.decodePerToken > 0.0
    requires s.pending[k].decodeStart.Some? && s.pending[k].finish.Some?
    requires s.pending[k].decodeStart.value + c.cost.decodePerToken <= s.now < s.pending[k].finish.value
    ensures Safe(c, w, Complete(Wake(EndLease(s, k, revised, emitted), order), k, s.now))
  {
    hide Timely; hide Staged; hide Tabled; hide Slotted; hide Timed; hide Arriving; hide Finished; hide PrefillPool;
    hide DecodePool; hide Rank; hide Wake; hide Cached; hide CutShort; hide Enumerates; hide Moved; hide ItemFits;
    var stage, n := s.alog.stage, revised.dNode;
    var item := s.pending[k].(spec := revised.(emittedTokens := emitted), finish := Some(s.now));
    var ended := EndLease(s, k, revised, emitted);
    var woken := Wake(ended, order);
    WakeFields(ended, order);
    WokenKept(c, w, s, k, revised, emitted, order);
    TableKeys(c, w, s.planned, s.pending, s.issued, stage, k);
    var before := s.(queue := woken.queue, serial := woken.serial);
    var e := NextEvent(woken, s.now, Completion, k);
    AbortPools(c, w, s, k, e, item, woken.serial + 1);
    AbortedFits(c, w, k, s.pending[k], item);
    SlotMoves(c, w, s.alog, k, Completing(e));
    var t := Complete(woken, k, s.now);
    MoveKeeps(c, w, before, t, {k}, k, Completing(e), item, t.serial);
    assert {k} - {k} == {};
  }

  lemma AbortPools(c: Config, w: map<string, Request>, s: State, k: Key, e: Event, item: Pending, bound: nat)
    requires PrefillPool(c, w, s.alog.stage, s.pending, s.now, s.pNodes, s.serial) && s.serial <= bound
    requires DecodePool(c, s.alog.stage, s.pending, s.alog.position, s.now, s.dNodes)
    requires k in s.pending && k in s.alog.stage && s.alog.stage[k].Leased? && e.at == s.now
    requires s.pending[k].decodeStart.Some? && s.pending[k].finish.Some? && s.pending[k].finish.value > s.now
    requires item == s.pending[k].(spec := item.spec, finish := Some(s.now))
    ensures var n, stage, pending := item.spec.dNode, s.alog.stage[k := Completing(e)], s.pending[k := item];
            var v := if n in s.dNodes then s.dNodes[n] else DNode(s.now, []);
            && PrefillPool(c, w, stage, pending, s.now, s.pNodes, bound)
            && DecodePool(c, stage, pending, s.alog.position, s.now, s.dNodes[n := CutShort(v, k, s.now)])
  {
    hide PrefillPool; hide DecodePool; hide CutShort;
    var n := item.spec.dNode;
    CutPool(c, s.alog.stage, s.pending, s.alog.position, s.now, s.dNodes, k, Completing(e), item,
            if n in s.dNodes then s.dNodes[n] else DNode(s.now, []));
    LeavePool(c, w, s, k, Completing(e), item, bound);
  }

  lemma AbortedFits(c: Config, w: map<string, Request>, k: Key, item: Pending, cut: Pending)
    requires ItemFits(c, w, k, item) && cut.plan == item.plan && cut.request == item.request
    requires CutOff(c, cut)
    ensures ItemFits(c, w, k, cut)
  {
  }

  /** What was issued and is not revised fits whatever happens to the times. */
  lemma PlanStillFits(c: Config, w: map<string, Request>, k: Key, item: Pending, later: Pending)
    requires ItemFits(c, w, k, item) && later.plan == item.plan == later.spec && later.request == item.request
    ensures ItemFits(c, w, k, later)
  {
  }

  /** Waking the sleepers touches the queue alone. */
  lemma {:induction false} WokenKept(c: Config, w: map<string, Request>, s: State, k: Key, revised: Spec, emitted: nat,
                                     order: seq<Key>)
    requires Kept(c, w, s, {k}) && k in s.pending && WakesSleepers(s, k, revised, order)
    ensures var woken := Wake(EndLease(s, k, revised, emitted), order);
            Kept(c, w, s.(queue := woken.queue, serial := woken.serial), {k})
  {
    hide Timely; hide Staged; hide Tabled; hide Slotted; hide Timed; hide Arriving; hide Finished; hide Wake; hide Cached;
    hide CutShort; hide Enumerates;
    SleepersStayLate(c, s, k, revised, emitted, order);
    WakeKeeps(EndLease(s, k, revised, emitted), order, {k}, w);
  }

  lemma SleepersStayLate(c: Config, s: State, k: Key, revised: Spec, emitted: nat, order: seq<Key>)
    requires Staged(s.queue, s.alog.stage, {k}) && k in s.pending && WakesSleepers(s, k, revised, order)
    ensures forall j :: j in order ==> j in s.alog.stage && Late(s.alog.stage[j])
  {
    hide Staged;
    SleepersAreLate(c, map[], EndLease(s, k, revised, 0), revised.dNode, order, {k});
  }

  /** A lease boundary raises exactly when an abort meets a free decode cost. */
  lemma LeaseFaults(c: Config, w: map<string, Request>, s: State, k: Key, revised: Spec, order: seq<Key>)
    requires ValidConfig(c) && SafeBut(c, w, s, {k}, s.serial)
    requires k in s.pending && k in s.alog.stage && s.alog.stage[k].Leased? && s.alog.stage[k].event.at == s.now
    ensures OnLeaseBoundary(c, s, k, revised, order).Ok? <==>
              !(revised.terminal.Aborted? && c.cost.decodePerToken == 0.0)
    ensures OnLeaseBoundary(c, s, k, revised, order).Raised? ==>
              OnLeaseBoundary(c, s, k, revised, order).error == NoDecodeCost
  {
    hide SafeBut; hide Kept; hide LeaseAligned; hide Wake; hide EndLease; hide Complete; hide ElapsedTokens;
    LeasedItem(c, w, s, k);
    if c.cost.decodePerToken > 0.0 {
      LeaseEndsEarly(c, s.pending[k], s.now);
    } else {
      FreeDecodeHasNoTokens(s.now - s.pending[k].decodeStart.value, c.cost.decodePerToken);
    }
  }

  lemma OnLeaseBoundaryKeeps(c: Config, w: map<string, Request>, s: State, k: Key, revised: Spec, order: seq<Key>)
    requires ValidConfig(c) && SafeBut(c, w, s, {k}, s.serial) && NoneIdle(s)
    requires k in s.pending && k in s.alog.stage && s.alog.stage[k].Leased? && s.alog.stage[k].event.at == s.now
    requires revised.terminal.Aborted? ==> WakesSleepers(s, k, revised, order)
    requires OnLeaseBoundary(c, s, k, revised, order).Ok?
    ensures Safe(c, w, OnLeaseBoundary(c, s, k, revised, order).value)
  {
    hide SafeBut; hide Kept; hide LeaseAligned; hide WakesSleepers; hide Wake; hide EndLease; hide Complete; hide ElapsedTokens;
    LeaseFaults(c, w, s, k, revised, order);
    LeasedItem(c, w, s, k);
    if revised.terminal.Aborted? {
      LeaseEndsEarly(c, s.pending[k], s.now);
      var emitted := ElapsedTokens(s.now - s.pending[k].decodeStart.value, c.cost.decodePerToken);
      AbortKeeps(c, w, s, k, revised, emitted.value, order);
    } else {
      FullLeaseKeeps(c, w, s, k);
    }
  }

  lemma FreeDecodeHasNoTokens(work: real, perToken: real)
    requires perToken <= 0.0
    ensures ElapsedTokens(work, perToken) == Raised(NoDecodeCost)
  {
  }

  lemma LeasedItem(c: Config, w: map<string, Request>, s: State, k: Key)
    requires SafeBut(c, w, s, {k}, s.serial) && k in s.pending && k in s.alog.stage && s.alog.stage[k].Leased?
    ensures LeaseAligned(c, s.pending[k], s.alog.stage[k].event.at)
    ensures s.pending[k].decodeStart.Some? && s.pending[k].finish.Some?
  {
    hide Kept; hide PrefillPool; hide Booked;
    assert Decoding(c, s.alog.stage[k], s.pending[k], s.alog.position, s.dNodes, k);
  }

  /** Without an abort the attempt runs to its full output. */
  lemma FullLeaseKeeps(c: Config, w: map<string, Request>, s: State, k: Key)
    requires ValidConfig(c) && SafeBut(c, w, s, {k}, s.serial) && NoneIdle(s)
    requires k in s.pending && k in s.alog.stage && s.alog.stage[k].Leased? && s.alog.stage[k].event.at == s.now
    requires LeaseAligned(c, s.pending[k], s.now)
    ensures s.pending[k].finish.Some? && Safe(c, w, Complete(s, k, s.pending[k].finish.value))
  {
    hide Timely; hide Staged; hide Tabled; hide Slotted; hide Timed; hide Arriving; hide Finished; hide PrefillPool; hide DecodePool;
    hide Rank; hide Cached; hide Moved; hide ItemFits;
    var stage, item := s.alog.stage, s.pending[k];
    LeaseEndsByFinish(c, item, s.now);
    var e := NextEvent(s, item.finish.value, Completion, k);
    TableKeys(c, w, s.planned, s.pending, s.issued, stage, k);
    assert s.pending[k := item] == s.pending;
    LeavePool(c, w, s, k, Completing(e), item, s.serial + 1);
    SlotMoves(c, w, s.alog, k, Completing(e));
    LeasedToCompleting(c, s, k, e);
    MoveKeeps(c, w, s, Complete(s, k, item.finish.value), {k}, k, Completing(e), item, s.serial + 1);
    assert {k} - {k} == {};
  }

  lemma LeaseEndsByFinish(c: Config, item: Pending, at: real)
    requires ValidConfig(c) && LeaseAligned(c, item, at)
    ensures item.decodeStart.value <= at <= item.finish.value
  {
    var lease: int :| 0 < lease < item.spec.emittedTokens && at == item.decodeStart.value + DecodeWork(c, lease);
    ScaledBetween(lease, item.spec.emittedTokens, c.cost.decodePerToken);
  }

  lemma LeasedToCompleting(c: Config, s: State, k: Key, e: Event)
    requires DecodePool(c, s.alog.stage, s.pending, s.alog.position, s.now, s.dNodes)
    requires k in s.alog.stage && k in s.pending && s.alog.stage[k].Leased? && s.pending[k].finish == Some(e.at)
    ensures DecodePool(c, s.alog.stage[k := Completing(e)], s.pending, s.alog.position, s.now, s.dNodes)
  {
    assert Decoding(c, s.alog.stage[k], s.pending[k], s.alog.position, s.dNodes, k);
    DecodePoolFrame(c, s, s.alog.stage[k := Completing(e)], s.pending, s.now, k);
  }

  // --- completions and arrivals ---------------------------------------------

  lemma SettleKeeps(c: Config, w: map<string, Request>, s: State, k: Key, cache: map<string, set<string>>)
    requires SafeBut(c, w, s, {k}, s.serial) && k in s.pending && k in s.alog.stage && s.alog.stage[k].Completing?
    requires Cached(c, cache)
    ensures SafeBut(c, w, Settle(s, k).(cache := cache), {}, s.serial)
    ensures Settle(s, k).alog.stage == s.alog.stage[k := Done]
  {
    hide Timely; hide Staged; hide Tabled; hide Slotted; hide Timed; hide Arriving; hide Finished; hide PrefillPool; hide DecodePool;
    hide Rank; hide Cached;
    var stage := s.alog.stage;
    TableKeys(c, w, s.planned, s.pending, s.issued, stage, k);
    RestLoose(s.queue, stage, k, Done);
    SlotMoves(c, w, s.alog, k, Done);
    TimedMoves(c, s.now, stage, s.pending, s.alog.since, s.alog.owner, k, Done, s.pending[k]);
    assert s.pending[k := s.pending[k]] == s.pending;
    TableMoves(c, w, s.planned, s.pending, s.issued, stage, k, s.pending[k], Done);
    ArrivalsStay(w, s.queue, stage, NextEvent(s, s.now, Completion, k), k, Done);
    StillFinished(stage, s.alog.completed, k, Done);
    LeavePool(c, w, s, k, Done, s.pending[k], s.serial);
    DoneDecoding(c, s, k);
  }

  lemma DoneDecoding(c: Config, s: State, k: Key)
    requires DecodePool(c, s.alog.stage, s.pending, s.alog.position, s.now, s.dNodes)
    requires k in s.alog.stage && k in s.pending && s.alog.stage[k].Completing?
    ensures DecodePool(c, s.alog.stage[k := Done], s.pending, s.alog.position, s.now, s.dNodes)
  {
    assert Decoding(c, s.alog.stage[k], s.pending[k], s.alog.position, s.dNodes, k);
    DecodePoolFrame(c, s, s.alog.stage[k := Done], s.pending, s.now, k);
  }

  /** An accepted mutation leaves every node cache within capacity. */
  lemma CacheStaysBounded(c: Config, cache: map<string, set<string>>, item: Pending, m: Mutation)
    requires Cached(c, cache) && CacheAfter(c, cache, item, m).Ok?
    ensures Cached(c, CacheAfter(c, cache, item, m).value)
  {
    if item.spec.terminal.Completed? || item.spec.prefillReusable {
      MutatedBounded(c, cache[item.spec.pNode], KeysOf(item.request.prefix), m);
    }
  }

  lemma MutatedBounded(c: Config, resident: set<string>, keys: set<string>, m: Mutation)
    requires |resident| <= c.cacheCapacity && Mutated(c, resident, keys, m).Ok?
    ensures |Mutated(c, resident, keys, m).value.0| <= c.cacheCapacity
  {
    var kept := resident - m.evictKeys;
    assert kept + (resident - kept) == resident;
    if m.admit {
      assert kept + keys == kept + (keys - kept);
    }
  }

  /** No retry has been issued for an attempt that is not over. */
  lemma ParentSlotFree(c: Config, w: map<string, Request>, s: State, k: Key)
    requires Slotted(c, w, s.alog.stage, s.alog.slot, s.alog.owner, s.alog.rank)
    requires k in s.alog.stage && !s.alog.stage[k].Done? && 0 <= k.1 < c.retryBudget
    ensures k !in s.alog.owner
  {
    assert k in s.alog.owner ==>
        TakesSlot(c, s.alog.stage, s.alog.owner, s.alog.rank, s.alog.owner[k], s.alog.slot[s.alog.owner[k]]);
  }

  /** An attempt whose record names another index than it was issued with was cut off, a token's
      time or more after it was issued. */
  lemma CutOffTakesTime(c: Config, w: map<string, Request>, s: State, k: Key)
    requires SafeBut(c, w, s, {k}, s.serial) && k in s.pending && k in s.alog.stage && s.alog.stage[k].Completing?
    requires s.alog.stage[k].event.at == s.now && s.pending[k].spec.index != k.1
    ensures k in s.alog.since && c.cost.decodePerToken > 0.0 && s.alog.since[k] + c.cost.decodePerToken <= s.now
  {
    hide PrefillPool; hide Staged; hide Slotted; hide Arriving; hide Finished; hide Timely; hide Cached; hide Booked;
    hide OvertimeSlot; hide LeaseAligned;
    assert Decoding(c, s.alog.stage[k], s.pending[k], s.alog.position, s.dNodes, k);
    assert ItemFits(c, w, k, s.pending[k]);
  }

  lemma IssuedInWindow(c: Config, w: map<string, Request>, s: State, loose: set<Key>, bound: nat, k: Key)
    requires SafeBut(c, w, s, loose, bound) && k in s.alog.stage
    ensures k in s.alog.since && c.observationStart <= s.alog.since[k] <= s.now
    ensures !s.alog.stage[k].Done? ==>
              forall x :: x in s.alog.owner && x.0 == k.0 && x.1 >= c.retryBudget ==>
                            x.1 >= OvertimeSlot(c, s.alog.since[k])
  {
    hide PrefillPool; hide DecodePool; hide Staged; hide Tabled; hide Slotted; hide Arriving; hide Finished; hide Timely;
    hide OvertimeSlot;
  }

  /** A retry that passes the budget check finds a slot: the index it retries, or one in overtime
      that no retry has taken, because its abort came at least one token later than the last. */
  lemma RetryFindsSlot(c: Config, w: map<string, Request>, s: State, k: Key)
    requires SafeBut(c, w, s, {k}, s.serial) && k in s.pending && k in s.alog.stage && s.alog.stage[k].Completing?
    requires s.alog.stage[k].event.at == s.now <= c.observationEnd && s.pending[k].spec.index < c.retryBudget
    requires k.1 >= 0
    ensures var slot := RetrySlot(c, k, s.now);
            && 0 <= slot < OvertimeSlot(c, c.observationStart) && (k.0, slot) !in s.alog.owner
            && (slot < c.retryBudget ==> slot == k.1)
            && (slot >= c.retryBudget ==> slot == OvertimeSlot(c, s.now))
  {
    hide Timely; hide Staged; hide Tabled; hide Slotted; hide Timed; hide Arriving; hide Finished; hide PrefillPool;
    hide DecodePool; hide OvertimeSlot; hide Cached;
    IssuedInWindow(c, w, s, {k}, s.serial, k);
    var since := s.alog.since[k];
    OvertimeRunsOut(c, since, s.now);
    OvertimeRunsOut(c, c.observationStart, since);
    if k.1 < c.retryBudget {
      ParentSlotFree(c, w, s, k);
    } else {
      CutOffTakesTime(c, w, s, k);
    }
  }

  /** Once the attempt is over its request has none left. */
  lemma SettledIsVacant(c: Config, w: map<string, Request>, s: State, k: Key, t: State)
    requires SafeBut(c, w, s, {k}, s.serial) && k in s.alog.stage && !s.alog.stage[k].Done?
    requires t.now == s.now && t.alog.owner == s.alog.owner && t.alog.stage == s.alog.stage[k := Done]
    ensures Vacant(c, t, k.0)
  {
    hide PrefillPool; hide DecodePool; hide Staged; hide Tabled; hide Slotted; hide Arriving; hide Finished; hide Timely;
    hide OvertimeSlot;
    OvertimeRunsOut(c, s.alog.since[k], s.now);
  }

  lemma OnCompletionKeeps(c: Config, w: map<string, Request>, s: State, k: Key, m: Mutation, retry: Option<Spec>)
    requires ValidRequests(w) && SafeBut(c, w, s, {k}, s.serial) && NoneIdle(s)
    requires k in s.pending && k in s.alog.stage
    requires s.alog.stage[k].Completing? && s.alog.stage[k].event.at == s.now <= c.observationEnd
    requires OnCompletion(c, s, k, m, retry).Ok?
    ensures Safe(c, w, OnCompletion(c, s, k, m, retry).value)
  {
    hide SafeBut; hide Kept; hide CacheAfter; hide Settle; hide Issue; hide ItemFits; hide Rank; hide Arrived;
    hide RetrySlot; hide OvertimeSlot; hide Vacant;
    var item := s.pending[k];
    CompletingItem(c, w, s, k);
    CacheStaysBounded(c, s.cache, item, m);
    var cache := CacheAfter(c, s.cache, item, m).value;
    var t := Settle(s, k).(cache := cache);
    SettleKeeps(c, w, s, k, cache);
    SettleFields(s, k);
    if !item.spec.terminal.Completed? && retry.Some? {
      RetryFindsSlot(c, w, s, k);
      SettledIsVacant(c, w, s, k, t);
      var slot := RetrySlot(c, k, s.now);
      IssueKeeps(c, w, t, item.request, retry.value, Max(s.now, retry.value.arrivalWork), slot);
      IssueFields(t, item.request, retry.value, Max(s.now, retry.value.arrivalWork), slot);
    }
  }

  lemma SettleFields(s: State, k: Key)
    ensures var t := Settle(s, k);
            && t.now == s.now && t.queue == s.queue && t.serial == s.serial && t.issued == s.issued
            && t.pNodes == s.pNodes && t.alog.owner == s.alog.owner && t.alog.stage == s.alog.stage[k := Done]
  {
  }

  lemma IssueFields(s: State, r: Request, spec: Spec, at: real, slot: int)
    ensures var t := Issue(s, r, spec, at, slot);
            t.now == s.now && t.pNodes == s.pNodes && t.serial == s.serial + 1 && t.dNodes == s.dNodes
  {
  }

  lemma CompletingItem(c: Config, w: map<string, Request>, s: State, k: Key)
    requires SafeBut(c, w, s, {k}, s.serial) && k in s.pending && k in s.alog.stage
    ensures ItemFits(c, w, k, s.pending[k]) && Cached(c, s.cache)
    ensures k.0 in w && s.pending[k].request == w[k.0] && k.1 >= 0 && Arrived(s.queue, k.0)
  {
    hide PrefillPool; hide DecodePool; hide Staged; hide Slotted; hide Finished; hide Timely;
  }

  lemma OnArrivalKeeps(c: Config, w: map<string, Request>, s: State, r: Request, plans: seq<Spec>)
    requires SafeBut(c, w, s, {}, s.serial) && NoneIdle(s) && r.id in w && w[r.id] == r && Arrived(s.queue, r.id)
    requires s.now == r.arrivalWork && (r.id, -1) !in s.alog.owner && Vacant(c, s, r.id)
    requires OnArrival(c, s, r, plans).Ok?
    ensures Safe(c, w, OnArrival(c, s, r, plans).value)
  {
    hide SafeBut; hide Kept; hide Issue; hide Arrived; hide Rank;
    if plans != [] {
      IssueKeeps(c, w, s, r, plans[0], plans[0].arrivalWork, -1);
      IssueFields(s, r, plans[0], plans[0].arrivalWork, -1);
    }
  }
}
