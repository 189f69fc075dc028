/** Which D node an abort may name (src/prefill_cache_sim/m12_kernel.py:755-767).  The kernel stores
    the revised record of an abort unchecked and frees the node it names; that no node is booked
    twice depends on exactly one condition, which the reprice hook can read from its view. */
module KernelAborts {
  import opened Options
  import opened KernelModel
  import opened KernelSteps
  import opened KernelSafety
  import opened KernelInvariant
  import opened KernelHandlers
  import opened KernelRuns
  import opened KernelResults

  // --- D nodes --------------------------------------------------------------

  /** An abort frees its own D node, or one that nobody has booked beyond now. */
  predicate FreesIdle(s: State, e: Event, a: Answers) {
    Aborts(s, e, a) ==>
      || a.revised.dNode == s.pending[e.payload.key].spec.dNode
      || a.revised.dNode !in s.dNodes || s.dNodes[a.revised.dNode].available <= e.at
  }

  lemma ApartLater(now: real, v: DNode, later: real)
    requires Apart(now, v) && now <= later
    ensures Apart(later, v)
  {
  }

  /** A node that is free can be booked. */
  lemma BookedApart(now: real, v: DNode, span: Span)
    requires Apart(now, v) && v.available <= now == span.start <= span.finish
    ensures Apart(now, DNode(span.finish, v.booked + [span]))
  {
  }

  /** Freeing a node that `k` has not booked keeps its bookings apart exactly if it is free. */
  lemma FreedApartIff(now: real, v: DNode, k: Key)
    requires Apart(now, v) && forall i :: 0 <= i < |v.booked| ==> v.booked[i].key != k
    ensures Apart(now, CutShort(v, k, now)) <==> v.available <= now
  {
    var r := CutShort(v, k, now);
    assert r.booked == v.booked;
    if v.available > now {
      assert r.booked[|r.booked| - 1].finish > r.available;
    }
  }

  /** Only the last booking of a node can lie beyond now. */
  lemma EarlierBookingsAreOver(now: real, v: DNode, i: nat)
    requires Apart(now, v) && i < |v.booked| && forall j :: 0 <= j < |v.booked| ==> v.booked[j].start <= now
    ensures i + 1 < |v.booked| ==> v.booked[i].finish <= now
  {
    assert i + 1 < |v.booked| ==> v.booked[i].finish <= v.booked[i + 1].start;
  }

  /** Cutting the open booking short keeps bookings apart. */
  lemma CutApart(now: real, v: DNode, k: Key, i: nat)
    requires Apart(now, v) && i < |v.booked| && v.booked[i].key == k && v.booked[i].finish > now
    requires forall j :: 0 <= j < |v.booked| ==> v.booked[j].start <= now && (v.booked[j].key == k ==> j == i)
    ensures Apart(now, CutShort(v, k, now))
  {
    EarlierBookingsAreOver(now, v, i);
    var r := CutShort(v, k, now);
    forall j, m | 0 <= j < m < |r.booked| ensures r.booked[j].finish <= r.booked[m].start {
      assert v.booked[j].finish <= v.booked[m].start;
    }
    forall j | 0 <= j < |r.booked| ensures r.booked[j].start <= r.booked[j].finish <= now {
      if j < i { assert v.booked[j].finish <= v.booked[i].start; }
    }
  }

  /** What the step of an accepted abort does to the D nodes and the records. */
  lemma AbortFields(c: Config, s: State, e: Event, a: Answers)
    requires Aborts(s, e, a) && Step(c, s, e, a).Ok?
    ensures var k, n, t := e.payload.key, a.revised.dNode, Step(c, s, e, a).value;
            && c.cost.decodePerToken > 0.0 && t.now == e.at
            && t.pending.Keys == s.pending.Keys
            && (forall j :: j in s.pending && j != k ==> t.pending[j] == s.pending[j])
            && t.pending[k].spec.index == a.revised.index && t.alog.slot == s.alog.slot
            && t.dNodes == s.dNodes[n := CutShort(if n in s.dNodes then s.dNodes[n] else DNode(e.at, []), k, e.at)]
  {
    hide Wake; hide Moved; hide CutShort;
    var k, p := e.payload.key, Pop(s, e);
    var emitted := ElapsedTokens(p.now - p.pending[k].decodeStart.value, c.cost.decodePerToken);
    var woken := Wake(EndLease(p, k, a.revised, emitted.value), a.wakeOrder);
    WakeFields(EndLease(p, k, a.revised, emitted.value), a.wakeOrder);
    MovedSlots(woken.alog, k, Completing(NextEvent(woken, e.at, Completion, k)));
  }

  lemma MovedSlots(log: AttemptLog, k: Key, st: Stage)
    ensures Moved(log, k, st).slot == log.slot
  {
  }

  /** The attempt of a lease boundary has booked its own node beyond it, unless decoding is free. */
  lemma LeaseMeans(c: Config, w: map<string, Request>, s: State, e: Event)
    requires Safe(c, w, s) && e in s.queue && e.payload.Concerns? && e.kind.LeaseBoundary?
    requires e.payload.key in s.pending && c.cost.decodePerToken > 0.0
    ensures var k, item := e.payload.key, s.pending[e.payload.key];
            && item.decodeStart.Some? && item.finish.Some? && item.finish.value > e.at >= s.now
            && item.spec == item.plan && item.spec.dNode in s.dNodes && k in s.alog.position
            && s.alog.position[k] < |s.dNodes[item.spec.dNode].booked|
            && s.dNodes[item.spec.dNode].booked[s.alog.position[k]].key == k
            && s.dNodes[item.spec.dNode].booked[s.alog.position[k]].finish > e.at
  {
    hide PrefillPool; hide Slotted; hide Timed; hide Arriving; hide Finished; hide LeaseAligned; hide ItemFits;
    hide NoIdle; hide Owned; hide BookedAs;
    MainEventMeans(s.queue, s.alog.stage, e);
    hide Staged;
    var k := e.payload.key;
    assert Decoding(c, s.alog.stage[k], s.pending[k], s.alog.position, s.dNodes, k);
    LeaseEndsEarly(c, s.pending[k], e.at);
    var n, i := s.pending[k].plan.dNode, s.alog.position[k];
    assert Booked(s.alog.stage, s.pending, s.alog.position, s.now, n, s.dNodes[n]);
    SpanIs(s.alog.stage, s.pending, s.alog.position, s.now, n, s.dNodes[n].booked[i], i);
  }

  /** Bookings of a node are begun, and those of one attempt are at one place of its own node. */
  lemma BookingsMean(c: Config, w: map<string, Request>, s: State, n: string, k: Key)
    requires Safe(c, w, s) && n in s.dNodes
    ensures forall i :: 0 <= i < |s.dNodes[n].booked| ==>
              && s.dNodes[n].booked[i].start <= s.now
              && (s.dNodes[n].booked[i].key == k ==>
                    k in s.alog.position && i == s.alog.position[k] && k in s.pending && s.pending[k].plan.dNode == n)
  {
    hide PrefillPool; hide Slotted; hide Timed; hide Arriving; hide Finished; hide Tabled; hide Timely; hide Staged;
    hide NoIdle; hide Decoding;
    assert Booked(s.alog.stage, s.pending, s.alog.position, s.now, n, s.dNodes[n]);
    assert forall i :: 0 <= i < |s.dNodes[n].booked| ==>
        BookedAs(s.alog.stage, s.pending, s.alog.position, s.now, n, s.dNodes[n].booked[i], i);
  }

  /** After an accepted abort the D nodes are still apart if and only if it freed an idle node. */
  lemma AbortApartIff(c: Config, w: map<string, Request>, s: State, e: Event, a: Answers)
    requires Safe(c, w, s) && NodesApart(s) && e in s.queue && Aborts(s, e, a) && Step(c, s, e, a).Ok?
    ensures NodesApart(Step(c, s, e, a).value) <==> FreesIdle(s, e, a)
  {
    hide Safe; hide Step; hide Apart; hide CutShort;
    var k, n, t := e.payload.key, a.revised.dNode, Step(c, s, e, a).value;
    AbortFields(c, s, e, a);
    LeaseMeans(c, w, s, e);
    var own := s.pending[k].spec.dNode;
    forall m | m in s.dNodes ensures Apart(e.at, s.dNodes[m]) { ApartLater(s.now, s.dNodes[m], e.at); }
    if n == own {
      BookingsMean(c, w, s, own, k);
      CutApart(e.at, s.dNodes[own], k, s.alog.position[k]);
    } else if n in s.dNodes {
      BookingsMean(c, w, s, n, k);
      FreedApartIff(e.at, s.dNodes[n], k);
      assert NodesApart(t) ==> Apart(e.at, t.dNodes[n]);
    } else {
      NewApart(e.at, k);
    }
  }

  lemma NewApart(now: real, k: Key)
    ensures Apart(now, CutShort(DNode(now, []), k, now))
  {
  }

  /** Booking is the only other thing that happens to a D node, and only to one that is free. */
  ghost predicate OnlyBooks(s: State, t: State) {
    || t.dNodes == s.dNodes
    || exists n, span: Span ::
         && n in s.dNodes && s.dNodes[n].available <= s.now == span.start <= span.finish
         && t.dNodes == s.dNodes[n := DNode(span.finish, s.dNodes[n].booked + [span])]
  }

  lemma BeginBooks(c: Config, s: State, k: Key, lease: Option<int>)
    requires ValidConfig(c) && k in s.pending && s.pending[k].spec.dNode in s.dNodes
    requires s.dNodes[s.pending[k].spec.dNode].available <= s.now && BeginDecode(c, s, k, lease).Ok?
    ensures OnlyBooks(s, BeginDecode(c, s, k, lease).value)
  {
    hide Moved; hide DecodeWork;
    WorkIsNoLess(c, s.pending[k].spec.emittedTokens);
    var finish := s.now + DecodeWork(c, s.pending[k].spec.emittedTokens);
    var n, span := s.pending[k].spec.dNode, Span(k, s.now, finish);
    assert BeginDecode(c, s, k, lease).value.dNodes == s.dNodes[n := DNode(span.finish, s.dNodes[n].booked + [span])];
  }

  lemma WorkIsNoLess(c: Config, tokens: nat)
    requires ValidConfig(c)
    ensures DecodeWork(c, tokens) >= 0.0
  {
    ScaledBetween(0, tokens, c.cost.decodePerToken);
  }

  lemma HandedOver(s: State, k: Key, n: string)
    requires n in s.pNodes
    ensures var t := HandOver(s, k, n); t.now == s.now && t.pending == s.pending && t.dNodes == s.dNodes
  {
    hide LeastIndex; hide Moved;
  }

  lemma PrefillFinishBooks(c: Config, s: State, k: Key, fence: real, lease: Option<int>)
    requires ValidConfig(c) && OnPrefillFinish(c, s, k, fence, lease).Ok?
    ensures OnlyBooks(s, OnPrefillFinish(c, s, k, fence, lease).value)
  {
    hide HandOver; hide BeginDecode; hide OnlyBooks;
    var t := HandOver(s, k, s.pending[k].spec.pNode);
    HandedOver(s, k, s.pending[k].spec.pNode);
    var start := Max(s.now, Max(s.dNodes[s.pending[k].spec.dNode].available, fence));
    if start > s.now {
      NothingBooked(s, Gate(t, k, start));
    } else {
      BeginBooks(c, t, k, lease);
      SameBooks(s, t, BeginDecode(c, t, k, lease).value);
    }
  }

  lemma NothingBooked(s: State, t: State)
    requires t.dNodes == s.dNodes
    ensures OnlyBooks(s, t)
  {
  }

  lemma SameBooks(s: State, m: State, t: State)
    requires m.dNodes == s.dNodes && m.now == s.now && OnlyBooks(m, t)
    ensures OnlyBooks(s, t)
  {
  }

  lemma DecodeStartBooks(c: Config, s: State, k: Key, fence: real, lease: Option<int>)
    requires ValidConfig(c) && OnDecodeStart(c, s, k, fence, lease).Ok?
    ensures OnlyBooks(s, OnDecodeStart(c, s, k, fence, lease).value)
  {
    hide BeginDecode; hide OnlyBooks;
    if s.pending[k].decodeStart.Some? {
      NothingBooked(s, s);
    } else {
      var start := Max(s.now, Max(s.dNodes[s.pending[k].spec.dNode].available, fence));
      if start > s.now { NothingBooked(s, Gate(s, k, start)); } else { BeginBooks(c, s, k, lease); }
    }
  }

  lemma CompletionBooks(c: Config, s: State, k: Key, m: Mutation, retry: Option<Spec>)
    requires OnCompletion(c, s, k, m, retry).Ok?
    ensures OnlyBooks(s, OnCompletion(c, s, k, m, retry).value)
  {
    hide CacheAfter; hide ValidatePlan; hide Moved; hide OnlyBooks;
    NothingBooked(s, OnCompletion(c, s, k, m, retry).value);
  }

  /** Every step that is not an abort. */
  lemma StepBooks(c: Config, s: State, e: Event, a: Answers)
    requires ValidConfig(c) && Step(c, s, e, a).Ok? && !Aborts(s, e, a)
    ensures OnlyBooks(Pop(s, e), Step(c, s, e, a).value)
  {
    hide OnPrefillFinish; hide OnDecodeStart; hide OnCompletion; hide Priced; hide ValidatePlan; hide LeastIndex;
    hide Moved; hide OnlyBooks; hide QueueWork;
    var t := Pop(s, e);
    if e.payload.Arrives? {
      NothingBooked(t, Step(c, s, e, a).value);
    } else {
      var k := e.payload.key;
      match e.kind
      case PrefillFinish => PrefillFinishBooks(c, t, k, a.fence, a.leaseTokens);
      case DecodeStart => DecodeStartBooks(c, t, k, a.fence, a.leaseTokens);
      case Completion => CompletionBooks(c, t, k, a.mutation, a.retry);
      case _ => NothingBooked(t, Step(c, s, e, a).value);
    }
  }

  lemma BooksStayApart(s: State, t: State)
    requires NodesApart(s) && OnlyBooks(s, t) && t.now == s.now
    ensures NodesApart(t)
  {
    hide Apart;
    if t.dNodes != s.dNodes {
      var n, span: Span :|
        && n in s.dNodes && s.dNodes[n].available <= s.now == span.start <= span.finish
        && t.dNodes == s.dNodes[n := DNode(span.finish, s.dNodes[n].booked + [span])];
      BookedApart(s.now, s.dNodes[n], span);
    }
  }

  /** Every step keeps the D nodes apart, except exactly an abort that frees a node in use. */
  lemma StepApartIff(c: Config, w: map<string, Request>, s: State, e: Event, a: Answers)
    requires ValidConfig(c) && Safe(c, w, s) && NodesApart(s) && e in s.queue && Step(c, s, e, a).Ok?
    ensures NodesApart(Step(c, s, e, a).value) <==> FreesIdle(s, e, a)
  {
    hide Safe; hide Step; hide Apart; hide OnlyBooks;
    if Aborts(s, e, a) {
      AbortApartIff(c, w, s, e, a);
    } else {
      NowOrLater(c, w, s, e);
      forall n | n in s.dNodes ensures Apart(e.at, s.dNodes[n]) { ApartLater(s.now, s.dNodes[n], e.at); }
      StepBooks(c, s, e, a);
      StepSetsClock(c, s, e, a);
      BooksStayApart(Pop(s, e), Step(c, s, e, a).value);
    }
  }

  lemma NowOrLater(c: Config, w: map<string, Request>, s: State, e: Event)
    requires Safe(c, w, s) && e in s.queue
    ensures s.now <= e.at
  {
    hide PrefillPool; hide Staged; hide Slotted; hide Timed; hide Arriving; hide Finished; hide DecodePool; hide Tabled;
    hide NoIdle;
  }

  /** The D nodes stay apart along a run. */
  ghost predicate ApartThroughout(states: seq<State>) {
    forall n :: 0 <= n < |states| ==> NodesApart(states[n])
  }

  ghost predicate AllFreeIdle(states: seq<State>, turns: seq<Turn>)
    requires |turns| <= |states|
  {
    forall i :: 0 <= i < |turns| ==> FreesIdle(states[i], turns[i].event, turns[i].answers)
  }

  lemma InitialApart(c: Config, workload: seq<Request>)
    ensures NodesApart(Initial(c, workload))
  {
    hide Slots;
  }

  lemma TurnApartIff(c: Config, workload: seq<Request>, states: seq<State>, turns: seq<Turn>, i: nat)
    requires ValidConfig(c) && ValidWorkload(c, workload) && IsRun(c, states, turns) && i < |turns|
    requires states[0] == Initial(c, workload) && NodesApart(states[i])
    ensures NodesApart(states[i + 1]) <==> FreesIdle(states[i], turns[i].event, turns[i].answers)
  {
    hide Safe; hide Step; hide ById; hide ListsSleepers; hide ValidConfig; hide ValidRequest; hide NodesApart; hide FreesIdle;
    EveryRunIsSafe(c, workload, states, turns, i);
    assert Legal(c, states[i], turns[i]);
    StepApartIff(c, ById(workload), states[i], turns[i].event, turns[i].answers);
  }

  lemma {:induction false} ApartUpTo(c: Config, workload: seq<Request>, states: seq<State>, turns: seq<Turn>, n: nat)
    requires ValidConfig(c) && ValidWorkload(c, workload) && IsRun(c, states, turns) && n <= |turns|
    requires states[0] == Initial(c, workload)
    requires forall i :: 0 <= i < n ==> FreesIdle(states[i], turns[i].event, turns[i].answers)
    ensures NodesApart(states[n])
  {
    hide IsRun; hide ValidConfig; hide ValidWorkload; hide NodesApart; hide FreesIdle; hide Initial;
    if n == 0 {
      InitialApart(c, workload);
    } else {
      ApartUpTo(c, workload, states, turns, n - 1);
      TurnApartIff(c, workload, states, turns, n - 1);
    }
  }

  /** Over every run: no D node is ever booked twice if and only if every abort frees its own node
      or one that nobody has booked beyond that instant. */
  lemma ApartThroughoutIff(c: Config, workload: seq<Request>, states: seq<State>, turns: seq<Turn>)
    requires ValidConfig(c) && ValidWorkload(c, workload) && IsRun(c, states, turns)
    requires states[0] == Initial(c, workload)
    ensures ApartThroughout(states) <==> AllFreeIdle(states, turns)
  {
    hide Legal; hide Step; hide ValidConfig; hide ValidWorkload; hide NodesApart; hide FreesIdle; hide Initial;
    if AllFreeIdle(states, turns) {
      forall n | 0 <= n < |states| ensures NodesApart(states[n]) { ApartUpTo(c, workload, states, turns, n); }
    }
    if ApartThroughout(states) {
      forall i | 0 <= i < |turns| ensures FreesIdle(states[i], turns[i].event, turns[i].answers) {
        assert NodesApart(states[i]) && NodesApart(states[i + 1]);
        TurnApartIff(c, workload, states, turns, i);
      }
    }
  }

  // --- who still decodes ----------------------------------------------------

  /** Another attempt than `k` is still decoding on `n` after `now`. */
  ghost predicate StillDecoding(s: State, k: Key, n: string, now: real, j: Key) {
    && j in s.pending && j != k && s.pending[j].plan.dNode == n
    && s.pending[j].decodeStart.Some? && s.pending[j].finish.Some? && s.pending[j].finish.value > now
  }

  /** No attempt issued for `n` has been moved away by an abort. */
  ghost predicate AtHome(s: State, n: string) {
    forall j :: j in s.pending && s.pending[j].plan.dNode == n ==> s.pending[j].spec.dNode == n
  }

  /** A node booked beyond now is decoding somebody's output until then. */
  lemma BusyMeansDecoding(c: Config, w: map<string, Request>, s: State, n: string) returns (j: Key)
    requires Safe(c, w, s) && NodesApart(s) && AtHome(s, n) && n in s.dNodes && s.dNodes[n].available > s.now
    ensures j in s.pending && s.pending[j].plan.dNode == n && s.pending[j].finish == Some(s.dNodes[n].available)
    ensures s.pending[j].decodeStart.Some?
  {
    hide PrefillPool; hide Staged; hide Slotted; hide Timed; hide Arriving; hide Finished; hide Timely; hide Decoding;
    hide Tabled; hide NoIdle; hide BookedAs; hide Disjoint;
    var v := s.dNodes[n];
    assert Booked(s.alog.stage, s.pending, s.alog.position, s.now, n, v) && Apart(s.now, v);
    var i := |v.booked| - 1;
    SpanIs(s.alog.stage, s.pending, s.alog.position, s.now, n, v.booked[i], i);
    j := v.booked[i].key;
  }

  /** Whoever decodes on a node has finished by the time the node is available. */
  lemma DecodedWithinBooking(c: Config, w: map<string, Request>, s: State, j: Key)
    requires Safe(c, w, s) && NodesApart(s) && j in s.pending && s.pending[j].decodeStart.Some?
    ensures s.pending[j].plan.dNode in s.dNodes && s.pending[j].finish.Some?
    ensures s.pending[j].decodeStart.value <= s.now
    ensures s.pending[j].finish.value <= s.dNodes[s.pending[j].plan.dNode].available
  {
    hide PrefillPool; hide Staged; hide Slotted; hide Timed; hide Arriving; hide Finished; hide Timely; hide LeaseAligned;
    hide ItemFits; hide NoIdle; hide BookedAs;
    assert Decoding(c, s.alog.stage[j], s.pending[j], s.alog.position, s.dNodes, j);
    var n, x := s.pending[j].plan.dNode, s.alog.position[j];
    var v := s.dNodes[n];
    assert Booked(s.alog.stage, s.pending, s.alog.position, s.now, n, v) && Apart(s.now, v);
    SpanIs(s.alog.stage, s.pending, s.alog.position, s.now, n, v.booked[x], x);
  }

  /** At a lease boundary nobody else still decodes on the attempt's own node. */
  lemma LeasedRunsAlone(c: Config, w: map<string, Request>, s: State, e: Event, j: Key)
    requires Safe(c, w, s) && NodesApart(s) && e in s.queue && e.payload.Concerns? && e.kind.LeaseBoundary?
    requires e.payload.key in s.pending && c.cost.decodePerToken > 0.0
    ensures !StillDecoding(s, e.payload.key, s.pending[e.payload.key].spec.dNode, e.at, j)
  {
    hide Safe; hide NodesApart;
    var k := e.payload.key;
    LeaseMeans(c, w, s, e);
    if StillDecoding(s, k, s.pending[k].spec.dNode, e.at, j) {
      DecodedWithinBooking(c, w, s, j);
      DecodesNeverOverlap(c, w, s, j, k);
      DecodedWithinBooking(c, w, s, k);
    }
  }

  /** On any other node nobody does if it is not booked beyond the boundary. */
  lemma FreeMeansIdle(c: Config, w: map<string, Request>, s: State, k: Key, n: string, at: real, j: Key)
    requires Safe(c, w, s) && NodesApart(s) && (n !in s.dNodes || s.dNodes[n].available <= at)
    ensures !StillDecoding(s, k, n, at, j)
  {
    hide Safe; hide NodesApart;
    if StillDecoding(s, k, n, at, j) { DecodedWithinBooking(c, w, s, j); }
  }

  /** An abort frees the node its revised record names.  Nobody else is decoding there if the node
      is the attempt's own or was not booked beyond this instant, and only then unless an attempt
      issued for the node has been moved away before. */
  lemma AbortFreesIdleNodeIff(c: Config, w: map<string, Request>, s: State, e: Event, a: Answers)
    requires Safe(c, w, s) && NodesApart(s) && e in s.queue && Aborts(s, e, a) && Step(c, s, e, a).Ok?
    ensures var n := a.revised.dNode;
            var t := Step(c, s, e, a).value;
            && n in t.dNodes && t.dNodes[n].available == e.at
            && (FreesIdle(s, e, a) ==> forall j :: !StillDecoding(t, e.payload.key, n, e.at, j))
            && ((forall j :: !StillDecoding(t, e.payload.key, n, e.at, j)) && AtHome(s, n) ==> FreesIdle(s, e, a))
  {
    hide Safe; hide Step; hide NodesApart; hide AtHome; hide CutShort;
    var k, n, t := e.payload.key, a.revised.dNode, Step(c, s, e, a).value;
    AbortFields(c, s, e, a);
    forall j ensures StillDecoding(t, k, n, e.at, j) <==> StillDecoding(s, k, n, e.at, j) {
    }
    hide StillDecoding;
    LeaseMeans(c, w, s, e);
    if n == s.pending[k].spec.dNode {
      forall j ensures !StillDecoding(s, k, n, e.at, j) { LeasedRunsAlone(c, w, s, e, j); }
    } else if n !in s.dNodes || s.dNodes[n].available <= e.at {
      forall j ensures !StillDecoding(s, k, n, e.at, j) { FreeMeansIdle(c, w, s, k, n, e.at, j); }
    } else if AtHome(s, n) {
      var j := BusyMeansDecoding(c, w, s, n);
      OthersStillDecode(s, k, n, e.at, j);
    }
  }

  lemma OthersStillDecode(s: State, k: Key, n: string, at: real, j: Key)
    requires n in s.dNodes && s.dNodes[n].available > at && k in s.pending && s.pending[k].plan.dNode != n
    requires j in s.pending && s.pending[j].plan.dNode == n && s.pending[j].finish == Some(s.dNodes[n].available)
    requires s.pending[j].decodeStart.Some?
    ensures StillDecoding(s, k, n, at, j)
  {
  }
}
