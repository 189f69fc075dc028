/** The invariant of every reachable kernel state, kept by each primitive of a step. */
module KernelInvariant {
  import opened Options
  import opened Lists
  import opened KernelModel
  import opened KernelSteps
  import opened KernelSafety

  // --- the invariant --------------------------------------------------------

  /** A ready attempt is in its node's queue, holds its node, or has had its prefill there. */
  ghost predicate PlacedAt(st: Stage, item: Pending, pNodes: map<string, PNode>, k: Key) {
    && item.plan.pNode in pNodes && item.attemptReady.Some?
    && (st.Waiting? ==> k in EntryKeys(pNodes[item.plan.pNode].waiting))
    && (st.Scheduled? || st.Prefilling? ==> pNodes[item.plan.pNode].holder == Some(k))
    && (HasRun(st) <==> item.prefillStart.Some?)
    && (HasRun(st) ==> k in SpanKeys(pNodes[item.plan.pNode].ran))
  }

  ghost predicate PrefillPool(c: Config, w: map<string, Request>, stage: map<Key, Stage>, pending: map<Key, Pending>,
                              now: real, pNodes: map<string, PNode>, bound: nat) {
    && pNodes.Keys == c.prefillNodes
    && (forall n {:trigger NodeSafe(c, w, stage, pending, now, n, pNodes[n], bound)} ::
          n in pNodes ==> NodeSafe(c, w, stage, pending, now, n, pNodes[n], bound))
    && (forall k {:trigger PlacedAt(stage[k], pending[k], pNodes, k)} ::
          k in stage && k in pending ==> PlacedAt(stage[k], pending[k], pNodes, k))
  }

  ghost predicate DecodePool(c: Config, stage: map<Key, Stage>, pending: map<Key, Pending>, position: map<Key, nat>,
                             now: real, dNodes: map<string, DNode>) {
    && c.decodeNodes <= dNodes.Keys
    && (forall n {:trigger Booked(stage, pending, position, now, n, dNodes[n])} ::
          n in dNodes ==> Booked(stage, pending, position, now, n, dNodes[n]))
    && (forall k {:trigger Decoding(c, stage[k], pending[k], position, dNodes, k)} ::
          k in stage && k in pending ==> Decoding(c, stage[k], pending[k], position, dNodes, k))
  }

  predicate TakesSlot(c: Config, stage: map<Key, Stage>, owner: map<(string, int), Key>, rank: map<(string, int), nat>,
                      k: Key, slot: int) {
    && (k.0, slot) in owner && owner[(k.0, slot)] == k
    && (k.0, slot) in rank && k in stage && rank[(k.0, slot)] == Rank(stage[k])
    && (0 <= slot < c.retryBudget ==> (k.0, slot) in stage && stage[(k.0, slot)].Done?)
  }

  /** Every attempt takes its own slot; within the budget a retry's slot is an attempt that is over. */
  ghost predicate Slotted(c: Config, w: map<string, Request>, stage: map<Key, Stage>, slot: map<Key, int>,
                          owner: map<(string, int), Key>, rank: map<(string, int), nat>) {
    && slot.Keys == stage.Keys
    && (forall x :: x in rank <==> x.0 in w && -1 <= x.1 < OvertimeSlot(c, c.observationStart))
    && (forall k {:trigger TakesSlot(c, stage, owner, rank, k, slot[k])} ::
          k in slot ==> TakesSlot(c, stage, owner, rank, k, slot[k]))
    && (forall x :: x in owner ==> owner[x].0 == x.0 && owner[x] in slot && slot[owner[x]] == x.1)
    && (forall x :: x in rank && x !in owner ==> rank[x] == UNISSUED)
  }

  /** A request has one attempt at a time, and overtime slots were taken no later than it was issued. */
  ghost predicate Timed(c: Config, now: real, stage: map<Key, Stage>, pending: map<Key, Pending>, since: map<Key, real>,
                        owner: map<(string, int), Key>) {
    && c.observationStart <= now && since.Keys == stage.Keys
    && (forall k :: k in since ==> c.observationStart <= since[k] <= now)
    && (forall j, k :: j in stage && k in stage && j.0 == k.0 && !stage[j].Done? && !stage[k].Done? ==> j == k)
    && (forall k, x :: k in stage && !stage[k].Done? && x in owner && x.0 == k.0 && x.1 >= c.retryBudget ==>
          x.1 >= OvertimeSlot(c, since[k]))
    && (forall k :: k in stage && k in pending && pending[k].decodeStart.Some? ==>
          since[k] <= pending[k].decodeStart.value)
  }

  predicate SameArrival(e: Event, f: Event) {
    e.payload.Arrives? && f.payload.Arrives? && e.payload.request.id == f.payload.request.id
  }

  /** Requests yet to arrive are the workload's own, one event each, and have no attempt. */
  ghost predicate Arriving(w: map<string, Request>, queue: set<Event>, stage: map<Key, Stage>) {
    && (forall e :: e in queue && e.payload.Arrives? ==>
          && e.payload.request.id in w && w[e.payload.request.id] == e.payload.request
          && e.at == e.payload.request.arrivalWork
          && forall k :: k in stage ==> k.0 != e.payload.request.id)
    && (forall e, f :: e in queue && f in queue && SameArrival(e, f) ==> e == f)
  }

  /** Attempts complete at most once. */
  ghost predicate Finished(stage: map<Key, Stage>, completed: seq<Key>) {
    && NoRepeats(completed)
    && (forall k :: k in completed <==> k in stage && stage[k].Done?)
  }

  ghost predicate Cached(c: Config, cache: map<string, set<string>>) {
    cache.Keys == c.prefillNodes && forall n :: n in cache ==> |cache[n]| <= c.cacheCapacity
  }

  /** The part of the invariant that is not about the nodes. */
  ghost predicate Kept(c: Config, w: map<string, Request>, s: State, loose: set<Key>) {
    && Timely(s.now, s.queue, s.serial)
    && Staged(s.queue, s.alog.stage, loose)
    && Tabled(c, w, s.planned, s.pending, s.issued, s.alog.stage)
    && Slotted(c, w, s.alog.stage, s.alog.slot, s.alog.owner, s.alog.rank)
    && Timed(c, s.now, s.alog.stage, s.pending, s.alog.since, s.alog.owner)
    && Arriving(w, s.queue, s.alog.stage)
    && Finished(s.alog.stage, s.alog.completed)
    && Cached(c, s.cache)
  }

  /** The invariant in the middle of a step: the attempts in `loose` are between stages,
      and waiting entries are numbered below `bound`. */
  ghost predicate SafeBut(c: Config, w: map<string, Request>, s: State, loose: set<Key>, bound: nat) {
    && Kept(c, w, s, loose)
    && PrefillPool(c, w, s.alog.stage, s.pending, s.now, s.pNodes, bound)
    && DecodePool(c, s.alog.stage, s.pending, s.alog.position, s.now, s.dNodes)
  }

  ghost predicate Safe(c: Config, w: map<string, Request>, s: State) {
    SafeBut(c, w, s, {}, s.serial) && forall n :: n in s.pNodes ==> NoIdle(s.pNodes[n])
  }

  /** No D node is booked twice.  This is not part of the invariant: it takes a reprice hook that
      frees no node in use. */
  ghost predicate NodesApart(s: State) {
    forall n :: n in s.dNodes ==> Apart(s.now, s.dNodes[n])
  }

  ghost predicate ValidRequests(w: map<string, Request>) {
    forall id :: id in w ==> w[id].id == id && ValidRequest(w[id])
  }

  // --- tables, slots, arrivals, completions ---------------------------------

  lemma TableMoves(c: Config, w: map<string, Request>, planned: map<Key, Pending>, pending: map<Key, Pending>,
                   issued: set<Key>, stage: map<Key, Stage>, k: Key, item: Pending, st: Stage)
    requires Tabled(c, w, planned, pending, issued, stage)
    requires k in pending && ItemFits(c, w, k, item) && !st.Planned?
    requires !Ended(st) ==> item.spec == item.plan
    ensures Tabled(c, w, planned, pending[k := item], issued, stage[k := st])
  {
  }

  lemma SlotMoves(c: Config, w: map<string, Request>, log: AttemptLog, k: Key, st: Stage)
    requires Slotted(c, w, log.stage, log.slot, log.owner, log.rank) && k in log.stage && !log.stage[k].Done?
    ensures var t := Moved(log, k, st); Slotted(c, w, t.stage, t.slot, t.owner, t.rank)
    ensures Moved(log, k, st) == log.(stage := log.stage[k := st],
                                      rank := log.rank[(k.0, log.slot[k]) := Rank(st)])
  {
    hide Rank; hide OvertimeSlot; hide TakesSlot;
    var stage, rank := log.stage[k := st], log.rank[(k.0, log.slot[k]) := Rank(st)];
    OwnsSlot(c, log.stage, log.owner, log.rank, k, log.slot[k]);
    forall j | j in log.slot ensures TakesSlot(c, stage, log.owner, rank, j, log.slot[j]) {
      SlotStays(c, log.stage, log.owner, log.rank, k, log.slot[k], st, j, log.slot[j]);
    }
  }

  lemma OwnsSlot(c: Config, stage: map<Key, Stage>, owner: map<(string, int), Key>, rank: map<(string, int), nat>,
                 k: Key, slot: int)
    requires TakesSlot(c, stage, owner, rank, k, slot)
    ensures (k.0, slot) in owner && owner[(k.0, slot)] == k && (k.0, slot) in rank
  {
  }

  /** Whoever moves, everybody keeps their slot. */
  lemma SlotStays(c: Config, stage: map<Key, Stage>, owner: map<(string, int), Key>, rank: map<(string, int), nat>,
                  k: Key, slot: int, st: Stage, j: Key, other: int)
    requires TakesSlot(c, stage, owner, rank, k, slot) && TakesSlot(c, stage, owner, rank, j, other)
    requires !stage[k].Done? && (j == k ==> other == slot)
    ensures TakesSlot(c, stage[k := st], owner, rank[(k.0, slot) := Rank(st)], j, other)
  {
    hide Rank;
  }

  /** A new attempt takes a free slot. */
  lemma SlotIssues(c: Config, w: map<string, Request>, log: AttemptLog, k: Key, slot: int, st: Stage)
    requires Slotted(c, w, log.stage, log.slot, log.owner, log.rank) && k !in log.stage
    requires k.0 in w && -1 <= slot < OvertimeSlot(c, c.observationStart) && (k.0, slot) !in log.owner
    requires 0 <= slot < c.retryBudget ==> (k.0, slot) in log.stage && log.stage[(k.0, slot)].Done?
    ensures Slotted(c, w, log.stage[k := st], log.slot[k := slot], log.owner[(k.0, slot) := k],
                    log.rank[(k.0, slot) := Rank(st)])
    ensures (k.0, slot) in log.rank && log.rank[(k.0, slot)] == UNISSUED
  {
    hide Rank;
    var x := (k.0, slot);
    var stage, slots, owner, rank := log.stage[k := st], log.slot[k := slot], log.owner[x := k], log.rank[x := Rank(st)];
    forall j | j in slots ensures TakesSlot(c, stage, owner, rank, j, slots[j]) {
      assert j != k ==> TakesSlot(c, log.stage, log.owner, log.rank, j, log.slot[j]);
    }
  }

  lemma TimedMoves(c: Config, now: real, stage: map<Key, Stage>, pending: map<Key, Pending>, since: map<Key, real>,
                   owner: map<(string, int), Key>, k: Key, st: Stage, item: Pending)
    requires Timed(c, now, stage, pending, since, owner) && k in stage && !stage[k].Done?
    requires item.decodeStart.Some? ==> item.decodeStart == Some(now)
                                        || (k in pending && item.decodeStart == pending[k].decodeStart)
    ensures Timed(c, now, stage[k := st], pending[k := item], since, owner)
  {
    hide OvertimeSlot;
  }

  lemma TimedFrame(c: Config, now: real, stage: map<Key, Stage>, pending: map<Key, Pending>, since: map<Key, real>,
                   owner: map<(string, int), Key>, now': real)
    requires Timed(c, now, stage, pending, since, owner) && now <= now'
    ensures Timed(c, now', stage, pending, since, owner)
  {
    hide OvertimeSlot;
  }

  /** A new attempt of a request that has none left; its slot may be in overtime. */
  lemma TimedIssues(c: Config, now: real, stage: map<Key, Stage>, pending: map<Key, Pending>, since: map<Key, real>,
                    owner: map<(string, int), Key>, k: Key, st: Stage, slot: int)
    requires Timed(c, now, stage, pending, since, owner) && k !in stage && k !in pending
    requires forall j :: j in stage && j.0 == k.0 ==> stage[j].Done?
    requires forall x :: x in owner && x.0 == k.0 && x.1 >= c.retryBudget ==> x.1 >= OvertimeSlot(c, now)
    requires slot >= c.retryBudget ==> slot >= OvertimeSlot(c, now)
    ensures Timed(c, now, stage[k := st], pending, since[k := now], owner[(k.0, slot) := k])
  {
    hide OvertimeSlot;
  }

  lemma ArrivalsStay(w: map<string, Request>, queue: set<Event>, stage: map<Key, Stage>, e: Event, k: Key, st: Stage)
    requires Arriving(w, queue, stage) && e.payload.Concerns?
    requires k in stage || forall f :: f in queue && f.payload.Arrives? ==> f.payload.request.id != k.0
    ensures Arriving(w, queue + {e}, stage[k := st]) && Arriving(w, queue, stage[k := st])
    ensures k in stage ==> Arriving(w, queue + {e}, stage)
  {
  }

  lemma StillFinished(stage: map<Key, Stage>, completed: seq<Key>, k: Key, st: Stage)
    requires Finished(stage, completed) && (k in stage ==> !stage[k].Done?)
    ensures !st.Done? ==> Finished(stage[k := st], completed)
    ensures st.Done? ==> Finished(stage[k := st], completed + [k])
  {
    NoRepeatsMore(completed, k);
  }

  // --- the pools ------------------------------------------------------------

  ghost predicate NoNewcomers(stage: map<Key, Stage>, pending: map<Key, Pending>,
                              stage': map<Key, Stage>, pending': map<Key, Pending>) {
    forall k :: k in stage' && k in pending' ==>
      && k in stage && k in pending
      && SamePrefill(pending[k], pending'[k]) && pending'[k].plan.pNode == pending[k].plan.pNode
      && (OnPrefillSide(stage'[k]) ==> stage[k] == stage'[k])
      && (HasRun(stage'[k]) <==> HasRun(stage[k]))
  }

  lemma PrefillPoolFrame(c: Config, w: map<string, Request>, s: State, stage': map<Key, Stage>,
                         pending': map<Key, Pending>, now': real, bound: nat, bound': nat)
    requires PrefillPool(c, w, s.alog.stage, s.pending, s.now, s.pNodes, bound)
    requires SameOnPrefillSide(s.alog.stage, s.pending, stage', pending')
    requires NoNewcomers(s.alog.stage, s.pending, stage', pending') && s.now <= now' && bound <= bound'
    ensures PrefillPool(c, w, stage', pending', now', s.pNodes, bound')
  {
    hide NodeSafe;
    forall n | n in s.pNodes ensures NodeSafe(c, w, stage', pending', now', n, s.pNodes[n], bound') {
      NodeFrame(c, w, s.alog.stage, s.pending, s.now, stage', pending', now', n, s.pNodes[n], bound, bound');
    }
    forall k | k in stage' && k in pending' ensures PlacedAt(stage'[k], pending'[k], s.pNodes, k) {
      assert PlacedAt(s.alog.stage[k], s.pending[k], s.pNodes, k);
    }
  }

  lemma DecodePoolFrame(c: Config, s: State, stage': map<Key, Stage>, pending': map<Key, Pending>, now': real, k: Key)
    requires DecodePool(c, s.alog.stage, s.pending, s.alog.position, s.now, s.dNodes) && s.now <= now'
    requires SameOnDecodeSide(s.alog.stage, s.pending, s.alog.position, stage', pending', s.alog.position)
    requires k in stage' && k in pending' ==> Decoding(c, stage'[k], pending'[k], s.alog.position, s.dNodes, k)
    requires forall j :: j in stage' && j in pending' && j != k ==>
                           && j in s.alog.stage && j in s.pending
                           && stage'[j] == s.alog.stage[j] && pending'[j] == s.pending[j]
    ensures DecodePool(c, stage', pending', s.alog.position, now', s.dNodes)
  {
    hide Booked; hide Decoding;
    forall n | n in s.dNodes ensures Booked(stage', pending', s.alog.position, now', n, s.dNodes[n]) {
      BookedFrame(s.alog.stage, s.pending, s.alog.position, s.now,
                  stage', pending', s.alog.position, now', n, s.dNodes[n]);
    }
  }

  lemma JoinPool(c: Config, w: map<string, Request>, stage: map<Key, Stage>, pending: map<Key, Pending>, now: real,
                 pNodes: map<string, PNode>, bound: nat, k: Key, item: Pending)
    requires PrefillPool(c, w, stage, pending, now, pNodes, bound) && k !in pending && k.0 in w
    requires k in stage && stage[k].Planned? && item.plan.pNode in pNodes
    requires item.attemptReady == Some(now) && item.prefillStart.None?
    ensures var n := item.plan.pNode;
            PrefillPool(c, w, stage[k := Waiting], pending[k := item], now,
                        pNodes[n := Joined(pNodes[n], Entry(now, bound, k), MaximumPrefillWork(c, w[k.0]))], bound + 1)
  {
    hide NodeSafe; hide NoRepeats; hide Joined; hide MaximumPrefillWork;
    var n := item.plan.pNode;
    var stage', pending' := stage[k := Waiting], pending[k := item];
    var v' := Joined(pNodes[n], Entry(now, bound, k), MaximumPrefillWork(c, w[k.0]));
    JoinedFields(pNodes[n], Entry(now, bound, k), MaximumPrefillWork(c, w[k.0]));
    forall m | m in pNodes
      ensures NodeSafe(c, w, stage', pending', now, m, pNodes[n := v'][m], bound + 1)
    {
      NodeFrame(c, w, stage, pending, now, stage', pending', now, m, pNodes[m], bound, bound);
      if m == n {
        PlannedIsNotReady(c, w, stage, pending, now, n, pNodes[n], bound, k);
        JoinKeeps(c, w, stage', pending', now, n, pNodes[n], bound, k);
      } else {
        NodeFrame(c, w, stage, pending, now, stage', pending', now, m, pNodes[m], bound, bound + 1);
      }
    }
    forall j | j in stage' && j in pending' ensures PlacedAt(stage'[j], pending'[j], pNodes[n := v'], j) {
      assert j != k ==> PlacedAt(stage[j], pending[j], pNodes, j);
    }
  }

  lemma JoinedFields(v: PNode, x: Entry, work: real)
    ensures Joined(v, x, work).holder == v.holder && Joined(v, x, work).busy == v.busy
    ensures Joined(v, x, work).ran == v.ran
    ensures forall k :: k in EntryKeys(Joined(v, x, work).waiting) <==> k in EntryKeys(v.waiting) || k == x.key
  {
    assert EntryKeys(v.waiting + [x]) == EntryKeys(v.waiting) + [x.key];
  }

  lemma PlannedIsNotReady(c: Config, w: map<string, Request>, stage: map<Key, Stage>, pending: map<Key, Pending>,
                          now: real, n: string, v: PNode, bound: nat, k: Key)
    requires NodeSafe(c, w, stage, pending, now, n, v, bound) && k in stage && stage[k].Planned?
    ensures k !in v.ready
  {
  }

  /** Moving an attempt of node `n` leaves another node alone. */
  lemma AwayFrame(c: Config, w: map<string, Request>, stage: map<Key, Stage>, pending: map<Key, Pending>, now: real,
                  m: string, v: PNode, bound: nat, k: Key, st: Stage, item: Pending, n: string)
    requires NodeSafe(c, w, stage, pending, now, m, v, bound) && m != n
    requires At(stage, pending, k, n) && !st.Planned?
    requires HasRun(stage[k]) ==> HasRun(st) && SamePrefill(pending[k], item)
    requires item.attemptReady == pending[k].attemptReady
    ensures NodeSafe(c, w, stage[k := st], pending[k := item], now, m, v, bound)
  {
    hide ReadyInTime; hide EntryKeys; hide SpanKeys; hide NoRepeats; hide WorkOf; hide EntryBefore;
    ReadyFrame(pending, pending[k := item], now, now, v, v);
    assert Unstarted(stage[k := st], v) == Unstarted(stage, v);
  }

  /** One attempt moves and its node with it; every other node and attempt stays. */
  lemma MovePool(c: Config, w: map<string, Request>, stage: map<Key, Stage>, pending: map<Key, Pending>, now: real,
                 pNodes: map<string, PNode>, bound: nat, k: Key, st: Stage, item: Pending, n: string, v: PNode)
    requires PrefillPool(c, w, stage, pending, now, pNodes, bound) && n in pNodes
    requires At(stage, pending, k, n) && item.plan == pending[k].plan && !st.Planned?
    requires HasRun(stage[k]) ==> HasRun(st) && SamePrefill(pending[k], item)
    requires item.attemptReady == pending[k].attemptReady
    requires NodeSafe(c, w, stage[k := st], pending[k := item], now, n, v, bound)
    requires PlacedAt(st, item, pNodes[n := v], k)
    requires forall j :: j in stage && j in pending && j != k && pending[j].plan.pNode == n ==>
                           PlacedAt(stage[j], pending[j], pNodes[n := v], j)
    ensures PrefillPool(c, w, stage[k := st], pending[k := item], now, pNodes[n := v], bound)
  {
    hide NodeSafe; hide HasRun; hide SamePrefill;
    var stage', pending', pNodes' := stage[k := st], pending[k := item], pNodes[n := v];
    forall m | m in pNodes' ensures NodeSafe(c, w, stage', pending', now, m, pNodes'[m], bound) {
      if m != n {
        AwayFrame(c, w, stage, pending, now, m, pNodes[m], bound, k, st, item, n);
      }
    }
    forall j | j in stage' && j in pending' ensures PlacedAt(stage'[j], pending'[j], pNodes', j) {
      assert j != k ==> PlacedAt(stage[j], pending[j], pNodes, j);
    }
  }

  lemma DispatchPool(c: Config, w: map<string, Request>, stage: map<Key, Stage>, pending: map<Key, Pending>, now: real,
                     pNodes: map<string, PNode>, bound: nat, n: string, e: Event)
    requires PrefillPool(c, w, stage, pending, now, pNodes, bound) && n in pNodes
    requires !pNodes[n].busy && pNodes[n].waiting != []
    ensures var k := pNodes[n].waiting[0].key;
            && LeastIndex(pNodes[n].waiting) == 0 && At(stage, pending, k, n) && stage[k].Waiting?
            && PrefillPool(c, w, stage[k := Scheduled(e)], pending, now, pNodes[n := Dispatched(pNodes[n])], bound)
  {
    hide WorkOf; hide Ordered; hide Ran; hide Dispatched; hide LeastIndex; hide EntryKeys;
    var v := pNodes[n];
    var k := v.waiting[0].key;
    assert NodeSafe(c, w, stage, pending, now, n, v, bound);
    FirstIsLeast(v.waiting, now, bound);
    DispatchKeeps(c, w, stage, pending, now, n, v, bound, e);
    DispatchedFront(v, now, bound);
    assert pending[k := pending[k]] == pending && PlacedAt(stage[k], pending[k], pNodes, k);
    forall j | j in stage && j in pending && j != k && pending[j].plan.pNode == n
      ensures PlacedAt(stage[j], pending[j], pNodes[n := Dispatched(v)], j)
    {
      assert PlacedAt(stage[j], pending[j], pNodes, j);
    }
    MovePool(c, w, stage, pending, now, pNodes, bound, k, Scheduled(e), pending[k], n, Dispatched(v));
  }

  lemma {:induction false} StartPool(c: Config, w: map<string, Request>, stage: map<Key, Stage>,
                                     pending: map<Key, Pending>, now: real, pNodes: map<string, PNode>, bound: nat,
                                     k: Key, item: Pending, e: Event)
    requires PrefillPool(c, w, stage, pending, now, pNodes, bound) && k in stage && k in pending && stage[k].Scheduled?
    requires item.plan == pending[k].plan && item.prefillStart == Some(now)
    requires item.attemptReady == pending[k].attemptReady
    requires item.prefillFinish == Some(e.at) && now <= e.at
    ensures var n := item.plan.pNode;
            && n in pNodes
            && PrefillPool(c, w, stage[k := Prefilling(e)], pending[k := item], now,
                           pNodes[n := Running(pNodes[n], k, now, e.at, WorkOf(c, w, EntryKeys(pNodes[n].waiting)))],
                           bound)
  {
    hide WorkOf; hide EntryKeys; hide NodeSafe;
    assert PlacedAt(stage[k], pending[k], pNodes, k);
    var n := item.plan.pNode;
    var v := pNodes[n];
    StartKeeps(c, w, stage, pending, now, n, v, bound, item, e);
    RunningFields(v, k, now, e.at, WorkOf(c, w, EntryKeys(v.waiting)));
    forall j | j in stage && j in pending && j != k && pending[j].plan.pNode == n
      ensures PlacedAt(stage[j], pending[j], pNodes[n := Running(v, k, now, e.at, WorkOf(c, w, EntryKeys(v.waiting)))], j)
    {
      assert PlacedAt(stage[j], pending[j], pNodes, j);
    }
    MovePool(c, w, stage, pending, now, pNodes, bound, k, Prefilling(e), item, n,
             Running(v, k, now, e.at, WorkOf(c, w, EntryKeys(v.waiting))));
  }

  lemma RunningFields(v: PNode, k: Key, start: real, finish: real, queued: real)
    ensures var v' := Running(v, k, start, finish, queued);
            && v'.holder == v.holder && v'.waiting == v.waiting
            && forall j :: j in SpanKeys(v'.ran) <==> j in SpanKeys(v.ran) || j == k
  {
    assert SpanKeys(v.ran + [Span(k, start, finish)]) == SpanKeys(v.ran) + [k];
  }

  lemma FreePool(c: Config, w: map<string, Request>, stage: map<Key, Stage>, pending: map<Key, Pending>, now: real,
                 pNodes: map<string, PNode>, bound: nat, k: Key)
    requires PrefillPool(c, w, stage, pending, now, pNodes, bound) && k in stage && k in pending && stage[k].Prefilling?
    requires stage[k].event.at <= now
    ensures var n := pending[k].plan.pNode;
            && n in pNodes
            && PrefillPool(c, w, stage[k := Prefilled], pending, now, pNodes[n := Freed(pNodes[n])], bound)
  {
    hide WorkOf; hide EntryKeys; hide Ordered; hide Ran;
    assert PlacedAt(stage[k], pending[k], pNodes, k);
    var n := pending[k].plan.pNode;
    FreeKeeps(c, w, stage, pending, now, n, pNodes[n], bound, Prefilled);
    assert pending[k := pending[k]] == pending;
    forall j | j in stage && j in pending && j != k && pending[j].plan.pNode == n
      ensures PlacedAt(stage[j], pending[j], pNodes[n := Freed(pNodes[n])], j)
    {
      assert PlacedAt(stage[j], pending[j], pNodes, j);
    }
    MovePool(c, w, stage, pending, now, pNodes, bound, k, Prefilled, pending[k], n, Freed(pNodes[n]));
  }

  /** An attempt not yet decoding books its node. */
  lemma BookPool(c: Config, stage: map<Key, Stage>, pending: map<Key, Pending>, position: map<Key, nat>, now: real,
                 dNodes: map<string, DNode>, k: Key, st: Stage, item: Pending)
    requires DecodePool(c, stage, pending, position, now, dNodes) && k in stage && k in pending
    requires item.plan == pending[k].plan && item.plan.dNode in dNodes && !Started(stage[k]) && Started(st)
    requires item.decodeStart == Some(now) && item.finish.Some?
    requires st.Completing? ==> item.finish == Some(st.event.at)
    requires st.Leased? ==> LeaseAligned(c, item, st.event.at)
    ensures var v := dNodes[item.plan.dNode];
            DecodePool(c, stage[k := st], pending[k := item], position[k := |v.booked|], now,
                       dNodes[item.plan.dNode := DNode(item.finish.value,
                                                       v.booked + [Span(k, now, item.finish.value)])])
  {
    hide Booked; hide LeaseAligned;
    var n := item.plan.dNode;
    var v := dNodes[n];
    var stage', pending', position' := stage[k := st], pending[k := item], position[k := |v.booked|];
    forall m | m in dNodes ensures Booked(stage', pending', position', now, m, dNodes[m]) {
      BookedFrame(stage, pending, position, now, stage', pending', position', now, m, dNodes[m]);
    }
    BookKeeps(stage', pending', position', now, n, v, k, item.finish.value);
    var dNodes' := dNodes[n := DNode(item.finish.value, v.booked + [Span(k, now, item.finish.value)])];
    forall j | j in stage' && j in pending' ensures Decoding(c, stage'[j], pending'[j], position', dNodes', j) {
      assert j != k ==> Decoding(c, stage[j], pending[j], position, dNodes, j);
    }
  }

  /** A lease boundary cuts a booking of whatever node its answer names, even an unknown one. */
  lemma CutPool(c: Config, stage: map<Key, Stage>, pending: map<Key, Pending>, position: map<Key, nat>, now: real,
                dNodes: map<string, DNode>, k: Key, st: Stage, item: Pending, v: DNode)
    requires DecodePool(c, stage, pending, position, now, dNodes) && k in stage && k in pending
    requires Started(stage[k]) && st.Completing? && st.event.at == now
    requires item.plan == pending[k].plan && item.decodeStart == pending[k].decodeStart
    requires pending[k].finish.Some? && pending[k].decodeStart.Some?
    requires item.finish == Some(now) && pending[k].finish.value > now
    requires v == if item.spec.dNode in dNodes then dNodes[item.spec.dNode] else DNode(now, [])
    ensures DecodePool(c, stage[k := st], pending[k := item], position, now,
                       dNodes[item.spec.dNode := CutShort(v, k, now)])
  {
    hide LeaseAligned; hide CutShort; hide Booked;
    var n := item.spec.dNode;
    var stage', pending', v' := stage[k := st], pending[k := item], CutShort(v, k, now);
    var dNodes' := dNodes[n := v'];
    EmptyIsBooked(stage, pending, position, now, n);
    forall m | m in dNodes' ensures Booked(stage', pending', position, now, m, dNodes'[m]) {
      if m == n {
        CutKeeps(stage, pending, position, now, n, v, k, item);
        BookedFrame(stage, pending', position, now, stage', pending', position, now, n, v');
      } else {
        CutKeeps(stage, pending, position, now, m, dNodes[m], k, item);
        BookedFrame(stage, pending', position, now, stage', pending', position, now, m, dNodes[m]);
      }
    }
    forall j | j in stage' && j in pending' ensures Decoding(c, stage'[j], pending'[j], position, dNodes', j) {
      assert Decoding(c, stage[j], pending[j], position, dNodes, j);
    }
  }

  lemma EmptyIsBooked(stage: map<Key, Stage>, pending: map<Key, Pending>, position: map<Key, nat>, now: real, n: string)
    ensures Booked(stage, pending, position, now, n, DNode(now, []))
  {
  }

  lemma BookedMeans(stage: map<Key, Stage>, pending: map<Key, Pending>, position: map<Key, nat>, now: real,
                    n: string, v: DNode, i: nat)
    requires Booked(stage, pending, position, now, n, v) && i < |v.booked|
    ensures BookedAs(stage, pending, position, now, n, v.booked[i], i)
  {
  }

  // --- popping --------------------------------------------------------------

  lemma PopKeeps(c: Config, w: map<string, Request>, s: State, e: Event, loose: set<Key>)
    requires Safe(c, w, s) && e in s.queue && IsNext(s.queue, e)
    requires Staged(s.queue - {e}, s.alog.stage, loose)
    ensures SafeBut(c, w, Pop(s, e), loose, s.serial) && s.now <= e.at
  {
    hide NodeSafe; hide Staged; hide Tabled; hide Slotted; hide NoIdle; hide Timely; hide Finished; hide IsNext;
    hide PrefillPool; hide DecodePool; hide Timed;
    PopKeepsTime(s.now, s.queue, s.serial, e);
    TimedFrame(c, s.now, s.alog.stage, s.pending, s.alog.since, s.alog.owner, e.at);
    PrefillPoolFrame(c, w, s, s.alog.stage, s.pending, e.at, s.serial, s.serial);
    DecodeClock(c, s, e.at);
  }

  lemma DecodeClock(c: Config, s: State, now': real)
    requires DecodePool(c, s.alog.stage, s.pending, s.alog.position, s.now, s.dNodes) && s.now <= now'
    ensures DecodePool(c, s.alog.stage, s.pending, s.alog.position, now', s.dNodes)
  {
    hide Decoding;
    forall n | n in s.dNodes ensures Booked(s.alog.stage, s.pending, s.alog.position, now', n, s.dNodes[n]) {
      assert Booked(s.alog.stage, s.pending, s.alog.position, s.now, n, s.dNodes[n]);
    }
    forall k | k in s.alog.stage && k in s.pending
      ensures Decoding(c, s.alog.stage[k], s.pending[k], s.alog.position, s.dNodes, k)
    {
    }
  }
}
