/** Runs of the kernel that show where its guarantees end: an abort that names another D node, aborts
    that hand spent retries back, a completion whose cache mutation the kernel skips, and a run
    that never ends. */
module KernelExamples {
  import opened Options
  import opened KernelModel
  import opened KernelSteps
  import opened KernelSafety
  import opened KernelRuns
  import opened KernelResults
  import opened KernelTermination
  import opened DigestLedger
  import opened DigestRuns

  ghost predicate Leads(c: Config, s: State, turns: seq<Turn>, t: State)
    decreases |turns|
  {
    if turns == [] then s == t
    else Legal(c, s, turns[0]) && Leads(c, Step(c, s, turns[0].event, turns[0].answers).value, turns[1..], t)
  }

  lemma {:induction false} LeadsOn(c: Config, s: State, turns: seq<Turn>, t: State, turn: Turn)
    requires Leads(c, s, turns, t) && Legal(c, t, turn)
    ensures Leads(c, s, turns + [turn], Step(c, t, turn.event, turn.answers).value)
    decreases |turns|
  {
    hide Step; hide IsNext; hide ListsSleepers;
    if turns == [] {
      assert [turn][1..] == [];
    } else {
      LeadsOn(c, Step(c, s, turns[0].event, turns[0].answers).value, turns[1..], t, turn);
      assert (turns + [turn])[1..] == turns[1..] + [turn];
    }
  }

  /** The states on the way. */
  lemma {:induction false} LeadsIsRun(c: Config, s: State, turns: seq<Turn>, t: State) returns (states: seq<State>)
    requires Leads(c, s, turns, t)
    ensures IsRun(c, states, turns) && states[0] == s && states[|turns|] == t
    decreases |turns|
  {
    hide Legal; hide Step;
    if turns == [] {
      states := [s];
    } else {
      FirstIsLegal(c, s, turns, t);
      var rest := LeadsIsRun(c, Step(c, s, turns[0].event, turns[0].answers).value, turns[1..], t);
      states := [s] + rest;
      forall i | 0 <= i < |turns|
        ensures Legal(c, states[i], turns[i])
        ensures Step(c, states[i], turns[i].event, turns[i].answers) == KernelModel.Ok(states[i + 1])
      {
        if i > 0 { assert turns[i] == turns[1..][i - 1] && states[i] == rest[i - 1] && states[i + 1] == rest[i]; }
      }
    }
  }

  lemma {:induction false} FirstIsLegal(c: Config, s: State, turns: seq<Turn>, t: State)
    requires Leads(c, s, turns, t) && turns != []
    ensures Legal(c, s, turns[0]) && Step(c, s, turns[0].event, turns[0].answers).Ok?
    ensures Leads(c, Step(c, s, turns[0].event, turns[0].answers).value, turns[1..], t)
  {
  }

  /** Everything else in the queue comes after what happens at `at` on the P side. */
  predicate AllLater(queue: set<Event>, at: real) {
    forall f :: f in queue ==> f.at > at || (f.at == at && f.kind.Arrival?)
  }

  predicate Idle(v: PNode) { !v.busy && v.waiting == [] }

  predicate FreePrefill(c: Config) { c.cost.prefillPerToken == 0.0 && c.cost.kvsPerToken == 0.0 }

  /** Answers of hooks that nobody asks. */
  const SILENT := Answers([], 0.0, None, NO_ATTEMPT, Mutation(false, {}), None, [])

  lemma ReadyTurn(c: Config, s: State, k: Key, e: Event) returns (u: State)
    requires e in s.queue && e.kind.AttemptReady? && e.payload == Concerns(k) && AllLater(s.queue - {e}, e.at)
    requires e.at <= c.observationEnd && k in s.planned && s.planned[k].spec.pNode in s.pNodes
    requires Idle(s.pNodes[s.planned[k].spec.pNode])
    ensures Legal(c, s, Turn(e, SILENT)) && Step(c, s, e, SILENT) == KernelModel.Ok(u)
    ensures var n, f := s.planned[k].spec.pNode, Event(e.at, PrefillStart, s.serial, Concerns(k));
            && n in u.pNodes && u.pNodes[n].waiting == []
            && u == s.(now := e.at, queue := s.queue - {e} + {f}, serial := s.serial + 1,
                       planned := s.planned - {k},
                       pending := s.pending[k := s.planned[k].(attemptReady := Some(e.at))],
                       pNodes := s.pNodes[n := u.pNodes[n]], alog := u.alog)
  {
    hide Moved; hide MaximumPrefillWork;
    u := Step(c, s, e, SILENT).value;
  }

  lemma StartTurn(c: Config, s: State, k: Key, e: Event) returns (u: State)
    requires e in s.queue && e.kind.PrefillStart? && e.payload == Concerns(k) && AllLater(s.queue - {e}, e.at)
    requires e.at <= c.observationEnd && k in s.pending && FreePrefill(c)
    requires s.pending[k].spec.pNode in s.pNodes && s.pending[k].spec.pNode in s.cache
    requires s.pNodes[s.pending[k].spec.pNode].waiting == []
    ensures Legal(c, s, Turn(e, SILENT)) && Step(c, s, e, SILENT) == KernelModel.Ok(u)
    ensures var n, f := s.pending[k].spec.pNode, Event(e.at, PrefillFinish, s.serial, Concerns(k));
            && n in u.pNodes && u.pNodes[n].waiting == [] && k in u.pending
            && u == s.(now := e.at, queue := s.queue - {e} + {f}, serial := s.serial + 1,
                       pending := s.pending[k := u.pending[k]], pNodes := s.pNodes[n := u.pNodes[n]], alog := u.alog)
            && u.pending[k].spec == s.pending[k].spec && u.pending[k].plan == s.pending[k].plan
            && u.pending[k].request == s.pending[k].request
            && u.pending[k].decodeStart == s.pending[k].decodeStart
  {
    hide Moved;
    u := Step(c, s, e, SILENT).value;
  }

  /** The prefill is over and the D node free: the attempt decodes at once. */
  lemma BeginTurn(c: Config, s: State, k: Key, e: Event, lease: Option<int>) returns (u: State)
    requires e in s.queue && e.kind.PrefillFinish? && e.payload == Concerns(k) && AllLater(s.queue - {e}, e.at)
    requires e.at <= c.observationEnd && k in s.pending
    requires s.pending[k].spec.pNode in s.pNodes && s.pNodes[s.pending[k].spec.pNode].waiting == []
    requires s.pending[k].spec.dNode in s.dNodes && s.dNodes[s.pending[k].spec.dNode].available <= e.at
    requires lease.Some? ==> 0 < lease.value < s.pending[k].spec.emittedTokens
    ensures var a := SILENT.(fence := e.at, leaseTokens := lease);
            Legal(c, s, Turn(e, a)) && Step(c, s, e, a) == KernelModel.Ok(u)
    ensures var item := s.pending[k];
            var finish := e.at + DecodeWork(c, item.spec.emittedTokens);
            var f := if lease.Some? then Event(e.at + DecodeWork(c, lease.value), LeaseBoundary, s.serial, Concerns(k))
                     else Event(finish, Completion, s.serial, Concerns(k));
            && item.spec.pNode in u.pNodes && Idle(u.pNodes[item.spec.pNode])
            && item.spec.dNode in u.dNodes && u.dNodes[item.spec.dNode].available == finish
            && u == s.(now := e.at, queue := s.queue - {e} + {f}, serial := s.serial + 1,
                       pending := s.pending[k := item.(decodeStart := Some(e.at), finish := Some(finish))],
                       pNodes := s.pNodes[item.spec.pNode := u.pNodes[item.spec.pNode]],
                       dNodes := s.dNodes[item.spec.dNode := u.dNodes[item.spec.dNode]], alog := u.alog)
  {
    hide Moved; hide DecodeWork;
    u := Step(c, s, e, SILENT.(fence := e.at, leaseTokens := lease)).value;
  }

  lemma TakenOut(rest: set<Event>, e: Event)
    requires AllLater(rest, e.at) && !e.kind.Arrival?
    ensures rest + {e} - {e} == rest
  {
  }

  /** A planned attempt on an idle P node with nothing to prefill decodes at its ready time. */
  lemma DecodesAtOnce(c: Config, s0: State, before: seq<Turn>, s: State, k: Key, e: Event, lease: Option<int>)
    returns (turns: seq<Turn>, u: State)
    requires Leads(c, s0, before, s)
    requires e in s.queue && e.kind.AttemptReady? && e.payload == Concerns(k) && AllLater(s.queue - {e}, e.at)
    requires e.at <= c.observationEnd && k in s.planned && FreePrefill(c)
    requires s.planned[k].spec.pNode in s.pNodes && s.planned[k].spec.pNode in s.cache
    requires Idle(s.pNodes[s.planned[k].spec.pNode])
    requires s.planned[k].spec.dNode in s.dNodes && s.dNodes[s.planned[k].spec.dNode].available <= e.at
    requires s.planned[k].decodeStart.None?
    requires lease.Some? ==> 0 < lease.value < s.planned[k].spec.emittedTokens
    ensures Leads(c, s0, turns, u) && k in u.pending
    ensures |turns| == |before| + 3 && turns[..|before|] == before
            && forall i :: |before| <= i < |turns| ==> !turns[i].event.kind.Completion?
    ensures var item := u.pending[k];
            var finish := e.at + DecodeWork(c, item.spec.emittedTokens);
            var f := if lease.Some? then Event(e.at + DecodeWork(c, lease.value), LeaseBoundary, s.serial + 2, Concerns(k))
                     else Event(finish, Completion, s.serial + 2, Concerns(k));
            && item.spec == s.planned[k].spec && item.plan == s.planned[k].plan && item.request == s.planned[k].request
            && item.decodeStart == Some(e.at) && item.finish == Some(finish)
            && item.spec.pNode in u.pNodes && Idle(u.pNodes[item.spec.pNode])
            && item.spec.dNode in u.dNodes && u.dNodes[item.spec.dNode].available == finish
            && u == s.(now := e.at, queue := s.queue - {e} + {f}, serial := s.serial + 3,
                       planned := s.planned - {k}, pending := s.pending[k := item],
                       pNodes := s.pNodes[item.spec.pNode := u.pNodes[item.spec.pNode]],
                       dNodes := s.dNodes[item.spec.dNode := u.dNodes[item.spec.dNode]], alog := u.alog)
  {
    hide Leads; hide Legal; hide Step; hide DecodeWork; hide AllLater;
    var s1 := ReadyTurn(c, s, k, e);
    LeadsOn(c, s0, before, s, Turn(e, SILENT));
    var f := Event(e.at, PrefillStart, s.serial, Concerns(k));
    TakenOut(s.queue - {e}, f);
    var s2 := StartTurn(c, s1, k, f);
    LeadsOn(c, s0, before + [Turn(e, SILENT)], s1, Turn(f, SILENT));
    var g := Event(e.at, PrefillFinish, s.serial + 1, Concerns(k));
    TakenOut(s.queue - {e}, g);
    var a := SILENT.(fence := e.at, leaseTokens := lease);
    u := BeginTurn(c, s2, k, g, lease);
    turns := before + [Turn(e, SILENT)] + [Turn(f, SILENT)] + [Turn(g, a)];
    LeadsOn(c, s0, before + [Turn(e, SILENT)] + [Turn(f, SILENT)], s2, Turn(g, a));
  }

  /** A request arrives and is given one attempt at once. */
  lemma ArrivalTurn(c: Config, s: State, r: Request, spec: Spec, e: Event) returns (u: State)
    requires e in s.queue && e == Event(0.0, Arrival, e.serial, Arrives(r)) && forall f :: f in s.queue ==> !Before(f, e)
    requires spec.id == r.id && spec.arrivalWork == r.arrivalWork == 0.0 && c.observationEnd >= 0.0
    requires spec.pNode in c.prefillNodes && spec.dNode in c.decodeNodes && (r.id, spec.index) !in s.issued
    ensures var a := SILENT.(plans := [spec]);
            Legal(c, s, Turn(e, a)) && Step(c, s, e, a) == KernelModel.Ok(u)
    ensures var k, f := (r.id, spec.index), Event(0.0, AttemptReady, s.serial, Concerns((r.id, spec.index)));
            u == s.(now := 0.0, queue := s.queue - {e} + {f}, serial := s.serial + 1,
                    planned := s.planned[k := NewPending(r, spec)], issued := s.issued + {k}, alog := u.alog)
  {
    hide Moved;
    u := Step(c, s, e, SILENT.(plans := [spec])).value;
  }

  /** An abort that names another D node or another index. */
  function Naming(spec: Spec, dNode: string, index: nat): Spec {
    spec.(dNode := dNode, index := index, terminal := Aborted)
  }

  /** The attempt is aborted after `lease` tokens while nobody is asleep. */
  lemma AbortTurn(c: Config, s: State, k: Key, e: Event, lease: nat, dNode: string, index: nat) returns (u: State)
    requires e == Event(e.at, LeaseBoundary, e.serial, Concerns(k)) && e in s.queue && e.at <= c.observationEnd
    requires forall f :: f in s.queue - {e} ==> f.at > e.at && !f.kind.DecodeStart?
    requires k in s.pending && s.pending[k].decodeStart.Some? && c.cost.decodePerToken > 0.0
    requires e.at == s.pending[k].decodeStart.value + DecodeWork(c, lease) && 0 < lease < s.pending[k].spec.emittedTokens
    ensures var a := SILENT.(revised := Naming(s.pending[k].spec, dNode, index));
            Legal(c, s, Turn(e, a)) && Step(c, s, e, a) == KernelModel.Ok(u)
    ensures var f := Event(e.at, Completion, s.serial, Concerns(k));
            && dNode in u.dNodes && u.dNodes[dNode].available == e.at && k in u.pending
            && u == s.(now := e.at, queue := s.queue - {e} + {f}, serial := s.serial + 1,
                       pending := s.pending[k := u.pending[k]], dNodes := s.dNodes[dNode := u.dNodes[dNode]], alog := u.alog)
            && u.pending[k].request == s.pending[k].request && u.pending[k].spec.index == index
            && u.pending[k].spec.terminal.Aborted? && u.pending[k].spec.prefillReusable == s.pending[k].spec.prefillReusable
  {
    hide Moved; hide CutShort; hide DecodeWork; hide ElapsedTokens; hide Enumerates;
    ElapsedLease(c, lease);
    var revised := Naming(s.pending[k].spec, dNode, index);
    assert e.at - s.pending[k].decodeStart.value == DecodeWork(c, lease);
    NobodySleeps(EndLease(Pop(s, e), k, revised, 0), dNode);
    u := Step(c, s, e, SILENT.(revised := revised)).value;
  }

  lemma NobodySleeps(s: State, n: string)
    requires forall f :: f in s.queue ==> !f.kind.DecodeStart?
    ensures Enumerates(s, n, [])
  {
  }

  /** The aborted attempt made nothing reusable and is retried at once. */
  lemma RetryTurn(c: Config, s: State, k: Key, e: Event, spec: Spec) returns (u: State)
    requires e == Event(e.at, Completion, e.serial, Concerns(k)) && e in s.queue && e.at <= c.observationEnd
    requires forall f :: f in s.queue - {e} ==> f.at > e.at
    requires k in s.pending && s.pending[k].spec.terminal.Aborted? && !s.pending[k].spec.prefillReusable
    requires s.pending[k].spec.index < c.retryBudget && s.pending[k].request.id == spec.id
    requires s.pending[k].request.arrivalWork <= spec.arrivalWork == e.at && (spec.id, spec.index) !in s.issued
    requires spec.pNode in c.prefillNodes && spec.dNode in c.decodeNodes
    ensures var a := SILENT.(retry := Some(spec));
            Legal(c, s, Turn(e, a)) && Step(c, s, e, a) == KernelModel.Ok(u)
    ensures var k1, f := (spec.id, spec.index), Event(e.at, AttemptReady, s.serial, Concerns((spec.id, spec.index)));
            u == s.(now := e.at, queue := s.queue - {e} + {f}, serial := s.serial + 1,
                    planned := s.planned[k1 := NewPending(s.pending[k].request, spec)],
                    issued := s.issued + {k1}, alog := u.alog)
  {
    hide Moved; hide OvertimeSlot;
    u := Step(c, s, e, SILENT.(retry := Some(spec))).value;
  }

  function Work(r: Request, index: nat, at: real, dNode: string): Spec {
    Spec(r.id, index, at, "p", dNode, 10, {}, Completed, false)
  }

  lemma OneArrives(c: Config, r: Request)
    requires c.observationStart == 0.0 && c.tiers == {"t"} && c.observationEnd > 0.0 && c.cacheCapacity > 0
    requires c.prefillNodes == {"p"} && c.decodeNodes == {"d"}
    requires ValidRequest(r) && r.arrivalWork == 0.0 && r.tier == "t"
    requires FreePrefill(c) && c.cost.decodePerToken >= 0.0
    ensures ValidConfig(c) && ValidWorkload(c, [r])
    ensures var s := Initial(c, [r]);
            && s.queue == {Event(0.0, Arrival, 0, Arrives(r))} && s.serial == 1
            && s.planned == map[] && s.pending == map[] && s.issued == {}
            && "p" in s.cache && s.dNodes == map["d" := DNode(0.0, [])]
            && s.pNodes == map["p" := PNode(0.0, false, [], 0.0, None, [], [])]
  {
    hide Slots;
    assert ArrivalEvent([r], 0) == Event(0.0, Arrival, 0, Arrives(r));
  }

  // --- an abort that names another D node -----------------------------------

  const TWO_NODES := Config(0.0, 20.0, {"p"}, {"d", "e"}, {"t"}, 1, CostModel(0.0, 0.0, 0, 1.0), 1)
  const JOB := Request("j", 0.0, "t", 0, [])
  const LEASED := Request("k", 0.0, "t", 0, [])

  lemma TwoArrive()
    ensures ValidConfig(TWO_NODES) && ValidWorkload(TWO_NODES, [JOB, LEASED])
    ensures var s := Initial(TWO_NODES, [JOB, LEASED]);
            && s.queue == {Event(0.0, Arrival, 0, Arrives(JOB)), Event(0.0, Arrival, 1, Arrives(LEASED))}
            && s.serial == 2 && s.planned == map[] && s.pending == map[] && s.issued == {} && "p" in s.cache
            && s.dNodes == map["d" := DNode(0.0, []), "e" := DNode(0.0, [])]
            && s.pNodes == map["p" := PNode(0.0, false, [], 0.0, None, [], [])]
            && Leads(TWO_NODES, s, [], s)
  {
    hide Slots;
    assert "j"[0] != "k"[0];
    var w := [JOB, LEASED];
    assert ArrivalEvent(w, 0) == Event(0.0, Arrival, 0, Arrives(JOB));
    assert ArrivalEvent(w, 1) == Event(0.0, Arrival, 1, Arrives(LEASED));
    assert w[0] == JOB && w[1] == LEASED;
  }

  /** "j" decodes on "e" until 10, "k" on "d" with a lease until 5. */
  lemma BothDecode() returns (turns: seq<Turn>, t: State)
    ensures Leads(TWO_NODES, Initial(TWO_NODES, [JOB, LEASED]), turns, t)
    ensures t.pending.Keys == t.issued == {("j", 0), ("k", 0)} && t.planned == map[] && t.serial == 10
    ensures t.queue == {Event(10.0, Completion, 5, Concerns(("j", 0))), Event(5.0, LeaseBoundary, 9, Concerns(("k", 0)))}
    ensures "p" in t.pNodes && Idle(t.pNodes["p"]) && "p" in t.cache && t.dNodes.Keys == {"d", "e"}
    ensures var j, k := t.pending[("j", 0)], t.pending[("k", 0)];
            && j.spec == j.plan == Work(JOB, 0, 0.0, "e") && j.decodeStart == Some(0.0) && j.finish == Some(10.0)
            && k.spec == Work(LEASED, 0, 0.0, "d") && k.decodeStart == Some(0.0) && k.request == LEASED
  {
    hide Leads; hide Legal; hide Step; hide Initial; hide ValidConfig; hide ValidWorkload; hide AllLater;
    assert "j"[0] != "k"[0] && "d"[0] != "e"[0];
    TwoArrive();
    var c, s0 := TWO_NODES, Initial(TWO_NODES, [JOB, LEASED]);
    var a, b := Event(0.0, Arrival, 0, Arrives(JOB)), Event(0.0, Arrival, 1, Arrives(LEASED));
    var x, y := Work(JOB, 0, 0.0, "e"), Work(LEASED, 0, 0.0, "d");
    var s1 := ArrivalTurn(c, s0, JOB, x, a);
    LeadsOn(c, s0, [], s0, Turn(a, SILENT.(plans := [x])));
    var r := Event(0.0, AttemptReady, 2, Concerns(("j", 0)));
    assert s1.queue - {r} == {b};
    OneLater(b, 0.0);
    var before, s2 := DecodesAtOnce(c, s0, [] + [Turn(a, SILENT.(plans := [x]))], s1, ("j", 0), r, None);
    assert DecodeWork(c, 10) == 10.0 && DecodeWork(c, 5) == 5.0;
    var d := Event(10.0, Completion, 5, Concerns(("j", 0)));
    assert s2.queue == {b, d};
    var s3 := ArrivalTurn(c, s2, LEASED, y, b);
    LeadsOn(c, s0, before, s2, Turn(b, SILENT.(plans := [y])));
    var q := Event(0.0, AttemptReady, 6, Concerns(("k", 0)));
    assert s3.queue - {q} == {d};
    OneLater(d, 0.0);
    turns, t := DecodesAtOnce(c, s0, before + [Turn(b, SILENT.(plans := [y]))], s3, ("k", 0), q, Some(5));
  }

  lemma OneLater(e: Event, at: real)
    requires e.at > at || (e.at == at && e.kind.Arrival?)
    ensures AllLater({e}, at)
  {
  }

  /** "j" decodes on "e" until 10.  "k" decodes on "d" under a lease; at 5 the reprice hook aborts
      it and names "e" as its D node, which then counts as free: the retry of "k" decodes there
      from 5 on, beside "j". */
  lemma ForeignAbortDoubleBooks() returns (states: seq<State>, turns: seq<Turn>)
    ensures ValidConfig(TWO_NODES) && ValidWorkload(TWO_NODES, [JOB, LEASED])
    ensures IsRun(TWO_NODES, states, turns) && states[0] == Initial(TWO_NODES, [JOB, LEASED])
    ensures var t := states[|turns|];
            ("j", 0) in t.pending && ("k", 1) in t.pending
    ensures var t := states[|turns|];
            var j, k := t.pending[("j", 0)], t.pending[("k", 1)];
            && j.plan.dNode == k.plan.dNode == j.spec.dNode == k.spec.dNode
            && j.decodeStart == Some(0.0) && j.finish == Some(10.0)
            && k.decodeStart == Some(5.0) && k.finish == Some(15.0)
  {
    hide Leads; hide Legal; hide Step; hide Initial; hide ValidConfig; hide ValidWorkload; hide AllLater;
    assert "j"[0] != "k"[0] && "d"[0] != "e"[0];
    TwoArrive();
    var c, s0, k := TWO_NODES, Initial(TWO_NODES, [JOB, LEASED]), ("k", 0);
    var before, s1 := BothDecode();
    var d, e := Event(10.0, Completion, 5, Concerns(("j", 0))), Event(5.0, LeaseBoundary, 9, Concerns(k));
    assert DecodeWork(c, 10) == 10.0 && DecodeWork(c, 5) == 5.0;
    var s2 := AbortTurn(c, s1, k, e, 5, "e", 0);
    var abort := Turn(e, SILENT.(revised := Naming(s1.pending[k].spec, "e", 0)));
    LeadsOn(c, s0, before, s1, abort);
    var f := Event(5.0, Completion, 10, Concerns(k));
    assert s2.queue == {d, f};
    var z := Work(LEASED, 1, 5.0, "e");
    var s3 := RetryTurn(c, s2, k, f, z);
    LeadsOn(c, s0, before + [abort], s2, Turn(f, SILENT.(retry := Some(z))));
    var r := Event(5.0, AttemptReady, 11, Concerns(("k", 1)));
    assert s3.queue - {r} == {d};
    OneLater(d, 5.0);
    var t: State;
    turns, t := DecodesAtOnce(c, s0, before + [abort] + [Turn(f, SILENT.(retry := Some(z)))], s3, ("k", 1), r, None);
    states := LeadsIsRun(c, s0, turns, t);
  }

  // --- a run that never ends ------------------------------------------------

  const ONE_NODE := Config(0.0, 1.0, {"p"}, {"d"}, {"t"}, 1, CostModel(0.0, 0.0, 0, 1.0), 0)
  const WAITER: Key := ("j", 0)

  /** One half, three quarters, seven eighths, ... */
  function Halfway(m: nat): (at: real)
    ensures 0.0 < at < 1.0
    ensures m > 0 ==> Halfway(m - 1) < at
  {
    if m == 0 then 0.5 else (Halfway(m - 1) + 1.0) / 2.0
  }

  /** The decode fence always answers a time halfway to the horizon. */
  function EndlessTurn(i: nat): Turn {
    if i == 0 then Turn(Event(0.0, Arrival, 0, Arrives(JOB)), SILENT.(plans := [Work(JOB, 0, 0.0, "d")]))
    else if i == 1 then Turn(Event(0.0, AttemptReady, 1, Concerns(WAITER)), SILENT)
    else if i == 2 then Turn(Event(0.0, PrefillStart, 2, Concerns(WAITER)), SILENT)
    else if i == 3 then Turn(Event(0.0, PrefillFinish, 3, Concerns(WAITER)), SILENT.(fence := Halfway(0)))
    else Turn(Event(Halfway(i - 4), DecodeStart, i, Concerns(WAITER)), SILENT.(fence := Halfway(i - 3)))
  }

  function EndlessState(i: nat): State {
    if i == 0 then Initial(ONE_NODE, [JOB])
    else
      var s := EndlessState(i - 1);
      var r := Step(ONE_NODE, s, EndlessTurn(i - 1).event, EndlessTurn(i - 1).answers);
      if r.Ok? then r.value else s
  }

  /** The attempt sits behind its gate, and its wake-up is all there is in the queue. */
  ghost predicate BehindGate(s: State, i: nat) {
    && i >= 4 && s.queue == {EndlessTurn(i).event} && s.serial == i + 1
    && WAITER in s.pending && s.pending[WAITER].decodeStart.None? && s.pending[WAITER].spec.dNode == "d"
    && "d" in s.dNodes && s.dNodes["d"].available == 0.0
  }

  lemma GateOpensNever(i: nat, s: State)
    requires BehindGate(s, i)
    ensures var turn := EndlessTurn(i);
            && Legal(ONE_NODE, s, turn)
            && BehindGate(Step(ONE_NODE, s, turn.event, turn.answers).value, i + 1)
  {
    hide Moved; hide Halfway;
    var turn := EndlessTurn(i);
    var at := Halfway(i - 3);
    var f := Event(at, DecodeStart, i + 1, Concerns(WAITER));
    assert s.queue - {turn.event} + {f} == {f};
  }

  lemma GateTurn(s: State) returns (u: State)
    requires s.queue == {EndlessTurn(3).event} && s.serial == 4 && WAITER in s.pending
    requires var item := s.pending[WAITER];
             item.decodeStart.None? && item.spec == Work(JOB, 0, 0.0, "d")
    requires "p" in s.pNodes && s.pNodes["p"].waiting == [] && "d" in s.dNodes && s.dNodes["d"].available == 0.0
    ensures Legal(ONE_NODE, s, EndlessTurn(3))
    ensures Step(ONE_NODE, s, EndlessTurn(3).event, EndlessTurn(3).answers) == KernelModel.Ok(u) && BehindGate(u, 4)
  {
    hide Moved; hide Halfway;
    u := Step(ONE_NODE, s, EndlessTurn(3).event, EndlessTurn(3).answers).value;
    assert EndlessTurn(4).event == Event(Halfway(0), DecodeStart, 4, Concerns(WAITER));
    assert s.queue - {EndlessTurn(3).event} + {EndlessTurn(4).event} == {EndlessTurn(4).event};
  }

  /** Four turns bring the attempt to its gate. */
  lemma ReachesGate()
    ensures forall i :: 0 <= i < 4 ==> Follows(ONE_NODE, EndlessState, EndlessTurn, i)
    ensures BehindGate(EndlessState(4), 4)
  {
    hide Legal; hide Step; hide Initial; hide BehindGate; hide Halfway;
    OneArrives(ONE_NODE, JOB);
    var s0 := EndlessState(0);
    var s1 := ArrivalTurn(ONE_NODE, s0, JOB, Work(JOB, 0, 0.0, "d"), EndlessTurn(0).event);
    assert EndlessState(1) == s1;
    assert s1.queue == {EndlessTurn(1).event};
    var s2 := ReadyTurn(ONE_NODE, s1, WAITER, EndlessTurn(1).event);
    assert EndlessState(2) == s2;
    assert s2.queue == {EndlessTurn(2).event};
    var s3 := StartTurn(ONE_NODE, s2, WAITER, EndlessTurn(2).event);
    assert EndlessState(3) == s3;
    assert s3.queue == {EndlessTurn(3).event};
    var s4 := GateTurn(s3);
    assert EndlessState(4) == s4;
  }

  lemma NextState(i: nat)
    requires Legal(ONE_NODE, EndlessState(i), EndlessTurn(i))
    ensures Step(ONE_NODE, EndlessState(i), EndlessTurn(i).event, EndlessTurn(i).answers) == Ok(EndlessState(i + 1))
  {
    hide Step; hide EndlessTurn; hide ListsSleepers; hide IsNext; hide Initial;
  }

  lemma {:induction false} StaysBehindGate(i: nat)
    requires i >= 4
    ensures BehindGate(EndlessState(i), i)
  {
    hide Legal; hide Step; hide EndlessTurn; hide BehindGate; hide EndlessState;
    if i == 4 {
      ReachesGate();
    } else {
      StaysBehindGate(i - 1);
      GateOpensNever(i - 1, EndlessState(i - 1));
      NextState(i - 1);
    }
  }

  lemma {:induction false} FollowsBehindGate(i: nat)
    requires BehindGate(EndlessState(i), i)
    ensures Follows(ONE_NODE, EndlessState, EndlessTurn, i)
  {
    hide Legal; hide Step; hide EndlessTurn; hide BehindGate; hide EndlessState;
    GateOpensNever(i, EndlessState(i));
    NextState(i);
  }

  /** A fence that halves the distance to the horizon every time puts one decode off for ever, and
      no event passes the horizon. */
  lemma EndlessRunExists()
    ensures ValidConfig(ONE_NODE) && ValidWorkload(ONE_NODE, [JOB]) && EndlessState(0) == Initial(ONE_NODE, [JOB])
    ensures forall i: nat :: Follows(ONE_NODE, EndlessState, EndlessTurn, i)
  {
    hide Follows; hide BehindGate;
    OneArrives(ONE_NODE, JOB);
    forall i: nat ensures Follows(ONE_NODE, EndlessState, EndlessTurn, i) {
      if i < 4 {
        ReachesGate();
      } else {
        StaysBehindGate(i);
        FollowsBehindGate(i);
      }
    }
  }

  // --- aborts that hand spent retries back ----------------------------------

  /** Time for `n` aborts, whatever the budget. */
  function Budgeted(budget: nat, n: nat): Config {
    Config(0.0, (n + 1) as real, {"p"}, {"d"}, {"t"}, 1, CostModel(0.0, 0.0, 0, 1.0), budget)
  }

  /** The attempt number `i` of "j" has just been issued; all its indices lie beyond the budget. */
  ghost predicate Overspent(budget: nat, s: State, i: nat) {
    var k := ("j", budget + i);
    && s.serial > 0 && s.queue == {Event(i as real, AttemptReady, s.serial - 1, Concerns(k))}
    && s.planned == map[k := NewPending(JOB, Work(JOB, budget + i, i as real, "d"))]
    && "p" in s.pNodes && Idle(s.pNodes["p"]) && "p" in s.cache
    && "d" in s.dNodes && s.dNodes["d"].available <= i as real
    && |s.issued| == i + 1 && forall j :: j in s.issued ==> j.0 == "j" && j.1 <= budget + i
  }

  lemma OverspendingStarts(budget: nat, n: nat) returns (turns: seq<Turn>, u: State)
    ensures ValidConfig(Budgeted(budget, n)) && ValidWorkload(Budgeted(budget, n), [JOB])
    ensures Leads(Budgeted(budget, n), Initial(Budgeted(budget, n), [JOB]), turns, u) && Overspent(budget, u, 0)
  {
    hide Legal; hide Step;
    var c := Budgeted(budget, n);
    OneArrives(c, JOB);
    var s := Initial(c, [JOB]);
    var e, spec := Event(0.0, Arrival, 0, Arrives(JOB)), Work(JOB, budget, 0.0, "d");
    u := ArrivalTurn(c, s, JOB, spec, e);
    turns := [] + [Turn(e, SILENT.(plans := [spec]))];
    LeadsOn(c, s, [], s, Turn(e, SILENT.(plans := [spec])));
    assert u.queue == {Event(0.0, AttemptReady, 1, Concerns(("j", budget)))};
  }

  /** Decode one token and be aborted, naming index 0. */
  lemma HandsBack(budget: nat, n: nat, s0: State, before: seq<Turn>, s: State, i: nat) returns (turns: seq<Turn>, u: State)
    requires i < n && Leads(Budgeted(budget, n), s0, before, s) && Overspent(budget, s, i)
    ensures Leads(Budgeted(budget, n), s0, turns, u)
    ensures var k, at := ("j", budget + i), (i + 1) as real;
            && u.queue == {Event(at, Completion, s.serial + 3, Concerns(k))} && u.serial == s.serial + 4
            && u.planned == map[] && u.issued == s.issued && k in u.pending && u.pending[k].request == JOB
            && u.pending[k].spec.index == 0 && u.pending[k].spec.terminal.Aborted? && !u.pending[k].spec.prefillReusable
            && "p" in u.pNodes && Idle(u.pNodes["p"]) && "p" in u.cache
            && "d" in u.dNodes && u.dNodes["d"].available == at
  {
    hide Leads; hide Legal; hide Step; hide AllLater;
    var c, k, at := Budgeted(budget, n), ("j", budget + i), (i + 1) as real;
    var ready := Event(i as real, AttemptReady, s.serial - 1, Concerns(k));
    assert s.queue - {ready} == {};
    NothingLater(i as real);
    OneTokenOfWork(c);
    var leased, s1 := DecodesAtOnce(c, s0, before, s, k, ready, Some(1));
    var e := Event(at, LeaseBoundary, s.serial + 2, Concerns(k));
    assert s1.queue == {e};
    u := AbortTurn(c, s1, k, e, 1, "d", 0);
    var abort := Turn(e, SILENT.(revised := Naming(s1.pending[k].spec, "d", 0)));
    LeadsOn(c, s0, leased, s1, abort);
    turns := leased + [abort];
  }

  /** ... and be retried. */
  lemma Overspends(budget: nat, n: nat, s0: State, before: seq<Turn>, s: State, i: nat) returns (turns: seq<Turn>, u: State)
    requires budget >= 1 && i < n && Leads(Budgeted(budget, n), s0, before, s) && Overspent(budget, s, i)
    ensures Leads(Budgeted(budget, n), s0, turns, u) && Overspent(budget, u, i + 1)
  {
    hide Leads; hide Legal; hide Step;
    var c, k, at := Budgeted(budget, n), ("j", budget + i), (i + 1) as real;
    var aborted, s2 := HandsBack(budget, n, s0, before, s, i);
    var f, spec := Event(at, Completion, s.serial + 3, Concerns(k)), Work(JOB, budget + i + 1, at, "d");
    u := RetryTurn(c, s2, k, f, spec);
    LeadsOn(c, s0, aborted, s2, Turn(f, SILENT.(retry := Some(spec))));
    turns := aborted + [Turn(f, SILENT.(retry := Some(spec)))];
    assert u.queue == {Event(at, AttemptReady, s.serial + 4, Concerns(("j", budget + i + 1)))};
  }

  lemma NothingLater(at: real)
    ensures AllLater({}, at)
  {
  }

  lemma {:induction false} OverspendsTo(budget: nat, n: nat, i: nat) returns (turns: seq<Turn>, u: State)
    requires budget >= 1 && i <= n
    ensures ValidConfig(Budgeted(budget, n)) && ValidWorkload(Budgeted(budget, n), [JOB])
    ensures Leads(Budgeted(budget, n), Initial(Budgeted(budget, n), [JOB]), turns, u) && Overspent(budget, u, i)
  {
    hide Leads; hide Overspent; hide Initial; hide ValidConfig; hide ValidWorkload;
    if i == 0 {
      turns, u := OverspendingStarts(budget, n);
    } else {
      var before, s := OverspendsTo(budget, n, i - 1);
      turns, u := Overspends(budget, n, Initial(Budgeted(budget, n), [JOB]), before, s, i - 1);
    }
  }

  /** For every budget from 1 on and every number of attempts there is a run in which one request
      gets that many and more: every abort names index 0. */
  lemma AbortsOverspend(budget: nat, n: nat) returns (states: seq<State>, turns: seq<Turn>)
    requires budget >= 1
    ensures ValidConfig(Budgeted(budget, n)) && ValidWorkload(Budgeted(budget, n), [JOB])
    ensures IsRun(Budgeted(budget, n), states, turns) && states[0] == Initial(Budgeted(budget, n), [JOB])
    ensures |AttemptsOf(states[|turns|].issued, "j")| == n + 1
  {
    hide Leads; hide Initial; hide ValidConfig; hide ValidWorkload; hide IsRun;
    var u: State;
    turns, u := OverspendsTo(budget, n, n);
    states := LeadsIsRun(Budgeted(budget, n), Initial(Budgeted(budget, n), [JOB]), turns, u);
    assert AttemptsOf(u.issued, "j") == u.issued;
  }

  // --- a mutation that the kernel skips -------------------------------------

  const KEYED := Request("j", 0.0, "t", 1, [Block("a", 1)])

  /** Work that fails after its prefill, emits nothing and declares nothing reusable. */
  const WASTED := Spec("j", 0, 0.0, "p", "d", 0, {}, Failed, false)

  lemma CompletionTurn(c: Config, s: State, k: Key, e: Event, m: Mutation) returns (u: State)
    requires e.kind.Completion? && e.payload == Concerns(k) && s.queue == {e} && e.at <= c.observationEnd
    requires k in s.pending && s.pending[k].spec == WASTED
    ensures Legal(c, s, Turn(e, SILENT.(mutation := m))) && Step(c, s, e, SILENT.(mutation := m)) == KernelModel.Ok(u)
  {
    hide Moved;
    u := Step(c, s, e, SILENT.(mutation := m)).value;
  }

  lemma KeyedIsValid()
    ensures ValidRequest(KEYED)
  {
    assert KEYED.prefix[1..] == [];
    assert TokensOf(KEYED.prefix) == KEYED.prefix[0].tokens + TokensOf([]);
  }

  /** A run from the start beside which the digest ledger goes wrong: the one attempt fails and
      declares nothing reusable, its policy admits its key, and the kernel skips that. */
  lemma SkippedAdmissionRun(digest: string -> Digest) returns (states: seq<State>, turns: seq<Turn>)
    ensures ValidConfig(ONE_NODE) && ValidWorkload(ONE_NODE, [KEYED])
    ensures IsRun(ONE_NODE, states, turns) && states[0] == Initial(ONE_NODE, [KEYED])
    ensures !TellsThroughout(ONE_NODE, states, turns, digest)
  {
    hide Leads; hide Legal; hide Step; hide Initial; hide ValidConfig; hide ValidWorkload; hide AllLater;
    hide TellsThroughout; hide IsRun;
    var c, s0, k, m := ONE_NODE, Initial(ONE_NODE, [KEYED]), ("j", 0), Mutation(true, {});
    KeyedIsValid();
    OneArrives(c, KEYED);
    NoTurns(c, s0);
    var a := Event(0.0, Arrival, 0, Arrives(KEYED));
    var s1 := ArrivalTurn(c, s0, KEYED, WASTED, a);
    LeadsOn(c, s0, [], s0, Turn(a, SILENT.(plans := [WASTED])));
    var r := Event(0.0, AttemptReady, 1, Concerns(k));
    assert s1.queue == {r} && s1.queue - {r} == {};
    NothingLater(0.0);
    var before, s2 := DecodesAtOnce(c, s0, [] + [Turn(a, SILENT.(plans := [WASTED]))], s1, k, r, None);
    var e := Event(0.0, Completion, 4, Concerns(k));
    assert DecodeWork(c, 0) == 0.0 && s2.queue == {e};
    var t := CompletionTurn(c, s2, k, e, m);
    var last := Turn(e, SILENT.(mutation := m));
    var passed := LeadsIsRun(c, s0, before, s2);
    RunLength(c, passed, before);
    states, turns := passed + [t], before + [last];
    RunOn(c, passed, before, last, t);
    assert states[|before|] == s2 && turns[|before|] == last;
    OneEnding(states, turns);
    NobodyTold(c, states, turns, s2.pending[k], m, digest);
  }

  lemma RunOn(c: Config, states: seq<State>, turns: seq<Turn>, turn: Turn, t: State)
    requires IsRun(c, states, turns) && Legal(c, states[|turns|], turn)
    requires Step(c, states[|turns|], turn.event, turn.answers) == KernelModel.Ok(t)
    ensures IsRun(c, states + [t], turns + [turn])
  {
    hide Legal; hide Step;
  }

  lemma {:induction false} NoEnding(states: seq<State>, turns: seq<Turn>, n: nat)
    requires n <= |turns| <= |states| && forall i :: 0 <= i < n ==> !turns[i].event.kind.Completion?
    ensures Endings(states, turns, n) == []
  {
    if n > 0 { NoEnding(states, turns, n - 1); }
  }

  lemma {:induction false} OneEnding(states: seq<State>, turns: seq<Turn>)
    requires turns != [] && |turns| <= |states| && Ends(states[|turns| - 1], turns[|turns| - 1])
    requires forall i :: 0 <= i < |turns| - 1 ==> !turns[i].event.kind.Completion?
    ensures Endings(states, turns, |turns|) == [EndingOf(states[|turns| - 1], turns[|turns| - 1])]
  {
    NoEnding(states, turns, |turns| - 1);
    assert Endings(states, turns, |turns|) == [] + [EndingOf(states[|turns| - 1], turns[|turns| - 1])];
  }

  /** A skipped admission as the one completion of a run. */
  lemma {:induction false} NobodyTold(c: Config, states: seq<State>, turns: seq<Turn>, item: Pending, m: Mutation,
                                      digest: string -> Digest)
    requires IsRun(c, states, turns) && states[0] == Initial(c, [KEYED])
    requires Endings(states, turns, |turns|) == [Ending(item, m)] && m == Mutation(true, {})
    requires item.spec == WASTED && item.request == KEYED && "p" in c.prefillNodes
    ensures |turns| < |states| && !TellsThroughout(c, states, turns, digest)
  {
    hide IsRun; hide TellsThroughout; hide Slots; hide FoldOf; hide DigestLedger.Booked;
    RunLength(c, states, turns);
    var e, b := Endings(states, turns, |turns|), Books(states[0].cache, map[]);
    assert e[..0] == [] && Run(c, b, e[..0], digest) == Some(b);
    assert KeysOf(KEYED.prefix) == {"a"} by { assert KEYED.prefix[0] in KEYED.prefix; }
    assert b.cache["p"] == {} && AddedBy(b, e[0]) == {"a"};
    assert !BalancedAt(c, b, e, 0, digest);
    LedgerTellsKernelIff(c, [KEYED], states, turns, digest);
  }

  lemma {:induction false} NoTurns(c: Config, s: State)
    ensures Leads(c, s, [], s)
  {
  }
}
