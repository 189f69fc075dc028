/** The digest ledger beside the kernel it watches (scripts/run_m12_final.py:900-938,
    src/prefill_cache_sim/m12_kernel.py:834-843): every completion is booked in the mutation
    hook, and the kernel then applies the mutation or skips it.
 */
module DigestRuns {
  import opened Options
  import opened KernelModel
  import opened KernelSteps
  import opened KernelHandlers
  import opened KernelRuns
  import opened DigestLedger

  type Ledger = map<string, Account>

  function AccountOf(ledger: Ledger, node: string): Account { if node in ledger then ledger[node] else Account(0, ZERO) }

  /** The kernel's node caches and the ledger beside them. */
  datatype Books = Books(cache: map<string, set<string>>, ledger: Ledger)

  /** One completion: the attempt and the mutation its policy chose. */
  datatype Ending = Ending(item: Pending, mutation: Mutation)

  /** The kernel applies the mutations of these attempts and skips all others. */
  predicate Applied(t: Ending) { t.item.spec.terminal.Completed? || t.item.spec.prefillReusable }

  function AddedBy(b: Books, t: Ending): set<string>
    requires t.item.spec.pNode in b.cache
  {
    Added(KeysOf(t.item.request.prefix), b.cache[t.item.spec.pNode], t.mutation)
  }

  /** The hook books, then the kernel applies or skips; nothing when the count has diverged or
      the kernel refuses. */
  ghost function After(c: Config, b: Books, t: Ending, digest: string -> Digest): Option<Books> {
    var n := t.item.spec.pNode;
    if n !in b.cache || AccountOf(b.ledger, n).count != |b.cache[n]| then None
    else
      var next := CacheAfter(c, b.cache, t.item, t.mutation);
      if next.Raised? then None
      else Some(Books(next.value,
                      b.ledger[n := Booked(AccountOf(b.ledger, n), t.mutation.evictKeys, AddedBy(b, t), digest)]))
  }

  /** Every node's entry tells its cache. */
  ghost predicate AllAgree(b: Books, digest: string -> Digest) {
    forall n :: n in b.cache ==> Agrees(AccountOf(b.ledger, n), b.cache[n], digest)
  }

  /** Before a skipped mutation: what it would add is what it would evict. */
  predicate Balanced(b: Books, t: Ending) {
    Applied(t) || (t.item.spec.pNode in b.cache && AddedBy(b, t) == t.mutation.evictKeys)
  }

  /** ... or could not be told from it. */
  ghost predicate Unnoticed(b: Books, t: Ending, digest: string -> Digest) {
    t.item.spec.pNode in b.cache && Collide(AddedBy(b, t), t.mutation.evictKeys, digest)
  }

  /** The cache of an applied completion is the one its mutation asks for. */
  lemma AppliedCache(c: Config, b: Books, t: Ending)
    requires Applied(t) && t.item.spec.pNode in b.cache && CacheAfter(c, b.cache, t.item, t.mutation).Ok?
    ensures t.mutation.evictKeys <= b.cache[t.item.spec.pNode]
    ensures CacheAfter(c, b.cache, t.item, t.mutation).value
            == b.cache[t.item.spec.pNode := Asked(b.cache[t.item.spec.pNode], KeysOf(t.item.request.prefix), t.mutation)]
  {
    var resident := b.cache[t.item.spec.pNode];
    assert !t.mutation.admit ==> resident - t.mutation.evictKeys + {} == resident - t.mutation.evictKeys;
  }

  /** From agreement a completion leaves every entry telling its cache if and only if the kernel
      applied the mutation, or the mutation it skipped would have added just what it evicts (or
      keys that collide with those). */
  lemma TurnAgreesIff(c: Config, b: Books, t: Ending, digest: string -> Digest)
    requires AllAgree(b, digest) && After(c, b, t, digest).Some?
    ensures AllAgree(After(c, b, t, digest).value, digest) <==> Balanced(b, t) || (!Applied(t) && Unnoticed(b, t, digest))
  {
    hide Booked; hide Agrees; hide Collide; hide Added; hide CacheAfter;
    var n, next := t.item.spec.pNode, After(c, b, t, digest).value;
    assert Agrees(AccountOf(b.ledger, n), b.cache[n], digest);
    if Applied(t) {
      AppliedCache(c, b, t);
      BookedTells(AccountOf(b.ledger, n), b.cache[n], KeysOf(t.item.request.prefix), t.mutation, digest);
    } else {
      SkippedCache(c, b, t);
      BookedStays(AccountOf(b.ledger, n), t.mutation.evictKeys, AddedBy(b, t), digest);
      SameCacheSameEntry(AccountOf(b.ledger, n), AccountOf(next.ledger, n), b.cache[n], digest);
      assert n in next.cache;
    }
  }

  lemma SkippedCache(c: Config, b: Books, t: Ending)
    requires !Applied(t)
    ensures CacheAfter(c, b.cache, t.item, t.mutation) == KernelModel.Ok(b.cache)
  {
  }

  lemma SameCacheSameEntry(e: Account, f: Account, resident: set<string>, digest: string -> Digest)
    requires Agrees(e, resident, digest)
    ensures Agrees(f, resident, digest) <==> f == e
  {
  }

  /** From agreement the count check never fires: only the kernel can refuse. */
  lemma AgreementPassesCheck(c: Config, b: Books, t: Ending, digest: string -> Digest)
    requires AllAgree(b, digest) && t.item.spec.pNode in b.cache
    ensures After(c, b, t, digest).Some? <==> CacheAfter(c, b.cache, t.item, t.mutation).Ok?
  {
    hide Booked; hide CacheAfter;
    assert Agrees(AccountOf(b.ledger, t.item.spec.pNode), b.cache[t.item.spec.pNode], digest);
  }

  /** After a skipped mutation the check fires at the node's next completion exactly when more
      or fewer keys would have come than gone; a swap of equally many passes it. */
  lemma CheckSeesOnlySizes(c: Config, b: Books, t: Ending, u: Ending, digest: string -> Digest)
    requires AllAgree(b, digest) && After(c, b, t, digest).Some? && !Applied(t)
    requires u.item.spec.pNode == t.item.spec.pNode && CacheAfter(c, b.cache, u.item, u.mutation).Ok?
    ensures After(c, After(c, b, t, digest).value, u, digest).None? <==> |AddedBy(b, t)| != |t.mutation.evictKeys|
  {
    hide FoldOf; hide CacheAfter; hide Added;
    assert Agrees(AccountOf(b.ledger, t.item.spec.pNode), b.cache[t.item.spec.pNode], digest);
    SkippedCache(c, b, t);
  }

  /** A history of completions; nothing once one has been refused. */
  ghost function Run(c: Config, b: Books, turns: seq<Ending>, digest: string -> Digest): Option<Books>
    decreases |turns|
  {
    if turns == [] then Some(b)
    else
      var front := Run(c, b, turns[..|turns| - 1], digest);
      if front.None? then None else After(c, front.value, turns[|turns| - 1], digest)
  }

  ghost predicate AgreesAfter(c: Config, b: Books, turns: seq<Ending>, n: nat, digest: string -> Digest)
    requires n <= |turns|
  {
    var s := Run(c, b, turns[..n], digest);
    s.Some? ==> AllAgree(s.value, digest)
  }

  ghost predicate AgreesThroughout(c: Config, b: Books, turns: seq<Ending>, digest: string -> Digest) {
    forall n :: 0 <= n <= |turns| ==> AgreesAfter(c, b, turns, n, digest)
  }

  /** Ending `i`, if it goes through, meets books where it is balanced or unnoticed. */
  ghost predicate BalancedAt(c: Config, b: Books, turns: seq<Ending>, i: nat, digest: string -> Digest)
    requires i < |turns|
  {
    var s := Run(c, b, turns[..i], digest);
    s.Some? && After(c, s.value, turns[i], digest).Some? ==>
      Balanced(s.value, turns[i]) || (!Applied(turns[i]) && Unnoticed(s.value, turns[i], digest))
  }

  lemma RunStep(c: Config, b: Books, turns: seq<Ending>, i: nat, digest: string -> Digest)
    requires i < |turns| && AgreesAfter(c, b, turns, i, digest)
    ensures AgreesAfter(c, b, turns, i + 1, digest) <==> BalancedAt(c, b, turns, i, digest)
  {
    hide AllAgree; hide After; hide Balanced; hide Unnoticed;
    assert turns[..i + 1][..i] == turns[..i] && turns[..i + 1][i] == turns[i];
    var s := Run(c, b, turns[..i], digest);
    if s.Some? && After(c, s.value, turns[i], digest).Some? {
      TurnAgreesIff(c, s.value, turns[i], digest);
    }
  }

  lemma {:induction false} BalancedRunsAgree(c: Config, b: Books, turns: seq<Ending>, n: nat, digest: string -> Digest)
    requires AllAgree(b, digest) && n <= |turns| && forall i :: 0 <= i < n ==> BalancedAt(c, b, turns, i, digest)
    ensures AgreesAfter(c, b, turns, n, digest)
  {
    hide AllAgree; hide BalancedAt;
    if n == 0 {
      assert turns[..0] == [];
    } else {
      BalancedRunsAgree(c, b, turns, n - 1, digest);
      RunStep(c, b, turns, n - 1, digest);
    }
  }

  /** Over every run and all nodes: the ledger tells the kernel's caches after every completion
      if and only if every completion that goes through was applied by the kernel, or its skipped
      mutation would have added just what it evicts, up to a collision. */
  lemma LedgerAgreesThroughoutIff(c: Config, b: Books, turns: seq<Ending>, digest: string -> Digest)
    requires AllAgree(b, digest)
    ensures AgreesThroughout(c, b, turns, digest)
            <==> (forall i :: 0 <= i < |turns| ==> BalancedAt(c, b, turns, i, digest))
  {
    hide AllAgree; hide BalancedAt; hide AgreesAfter;
    if forall i :: 0 <= i < |turns| ==> BalancedAt(c, b, turns, i, digest) {
      forall n | 0 <= n <= |turns| ensures AgreesAfter(c, b, turns, n, digest) {
        BalancedRunsAgree(c, b, turns, n, digest);
      }
    }
    if AgreesThroughout(c, b, turns, digest) {
      forall i | 0 <= i < |turns| ensures BalancedAt(c, b, turns, i, digest) {
        assert AgreesAfter(c, b, turns, i, digest) && AgreesAfter(c, b, turns, i + 1, digest);
        RunStep(c, b, turns, i, digest);
      }
    }
  }

  /** The same from the kernel's empty caches and a fresh ledger. */
  lemma FreshLedgerAgreesThroughoutIff(c: Config, nodes: set<string>, turns: seq<Ending>, digest: string -> Digest)
    ensures var b := Books(map n | n in nodes :: {}, map[]);
            AgreesThroughout(c, b, turns, digest)
            <==> (forall i :: 0 <= i < |turns| ==> BalancedAt(c, b, turns, i, digest))
  {
    FreshBooksAgree(nodes, digest);
    LedgerAgreesThroughoutIff(c, Books(map n | n in nodes :: {}, map[]), turns, digest);
  }

  /** The kernel's empty caches and a fresh ledger agree. */
  lemma FreshBooksAgree(nodes: set<string>, digest: string -> Digest)
    ensures AllAgree(Books(map n | n in nodes :: {}, map[]), digest)
  {
    FoldOfNothing(digest);
  }

  /** The skip is real: an aborted attempt that made nothing reusable, whose policy admits its
      one key, leaves the ledger counting a key the cache does not hold, and the next completion
      on the node is refused. */
  lemma SkippedAdmissionDiverges(c: Config, item: Pending, digest: string -> Digest, u: Ending)
    requires item.spec.terminal.Aborted? && !item.spec.prefillReusable && item.spec.pNode == "p"
    requires item.request.prefix == [Block("a", 1)] && u.item.spec.pNode == "p"
    ensures var b, t := Books(map["p" := {}], map[]), Ending(item, Mutation(true, {}));
            && AllAgree(b, digest) && After(c, b, t, digest).Some?
            && After(c, b, t, digest).value.cache == b.cache
            && AccountOf(After(c, b, t, digest).value.ledger, "p").count == 1
            && !AllAgree(After(c, b, t, digest).value, digest)
            && After(c, After(c, b, t, digest).value, u, digest).None?
  {
    var b, t := Books(map["p" := {}], map[]), Ending(item, Mutation(true, {}));
    FoldOfNothing(digest);
    assert KeysOf(item.request.prefix) == {"a"} by { assert item.request.prefix[0] in item.request.prefix; }
    assert AddedBy(b, t) == {"a"};
    var next := After(c, b, t, digest).value;
    assert "p" in next.cache && next.cache["p"] == {};
  }

  // --- the completions of a kernel run --------------------------------------

  predicate Ends(s: State, turn: Turn) {
    turn.event.kind.Completion? && turn.event.payload.Concerns? && turn.event.payload.key in s.pending
  }

  function EndingOf(s: State, turn: Turn): Ending
    requires Ends(s, turn)
  {
    Ending(s.pending[turn.event.payload.key], turn.answers.mutation)
  }

  /** The completions among the first `n` turns of a run, in order. */
  function Endings(states: seq<State>, turns: seq<Turn>, n: nat): seq<Ending>
    requires n <= |turns| <= |states|
  {
    if n == 0 then []
    else
      var s, turn := states[n - 1], turns[n - 1];
      Endings(states, turns, n - 1)
      + (if Ends(s, turn) then [EndingOf(s, turn)] else [])
  }

  lemma BoundaryKeepsCaches(c: Config, s: State, k: Key, revised: Spec, order: seq<Key>)
    requires OnLeaseBoundary(c, s, k, revised, order).Ok?
    ensures OnLeaseBoundary(c, s, k, revised, order).value.cache == s.cache
  {
    hide Wake; hide Moved; hide ElapsedTokens; hide CutShort;
    if revised.terminal.Aborted? {
      var emitted := ElapsedTokens(s.now - s.pending[k].decodeStart.value, c.cost.decodePerToken);
      WakeFields(EndLease(s, k, revised, emitted.value), order);
    }
  }

  lemma PrefillFinishKeepsCaches(c: Config, s: State, k: Key, fence: real, lease: Option<int>)
    requires OnPrefillFinish(c, s, k, fence, lease).Ok?
    ensures OnPrefillFinish(c, s, k, fence, lease).value.cache == s.cache
  {
    hide LeastIndex; hide Moved; hide DecodeWork;
  }

  lemma CompletionChangesCaches(c: Config, s: State, k: Key, m: Mutation, retry: Option<Spec>)
    requires OnCompletion(c, s, k, m, retry).Ok?
    ensures k in s.pending && CacheAfter(c, s.cache, s.pending[k], m)
                              == KernelModel.Ok(OnCompletion(c, s, k, m, retry).value.cache)
  {
    hide CacheAfter; hide ValidatePlan; hide Moved;
  }

  /** A completion takes the caches to `CacheAfter`; nothing else touches them. */
  lemma OnlyCompletionsTouchCaches(c: Config, s: State, turn: Turn)
    requires Step(c, s, turn.event, turn.answers).Ok?
    ensures var t := Step(c, s, turn.event, turn.answers).value;
            if Ends(s, turn)
            then CacheAfter(c, s.cache, EndingOf(s, turn).item, EndingOf(s, turn).mutation) == KernelModel.Ok(t.cache)
            else t.cache == s.cache
  {
    hide OnPrefillFinish; hide OnLeaseBoundary; hide OnCompletion; hide Priced; hide ValidatePlan; hide LeastIndex;
    hide Moved; hide CacheAfter;
    var e, a := turn.event, turn.answers;
    if e.payload.Concerns? {
      var k, t := e.payload.key, Pop(s, e);
      match e.kind
      case PrefillFinish => PrefillFinishKeepsCaches(c, t, k, a.fence, a.leaseTokens);
      case LeaseBoundary => BoundaryKeepsCaches(c, t, k, a.revised, a.wakeOrder);
      case Completion => CompletionChangesCaches(c, t, k, a.mutation, a.retry);
      case _ =>
    }
  }

  /** Along every kernel run, unless the hook has refused, the caches the ledger is held against
      are the caches of the kernel. */
  lemma {:induction false} CachesFollowEndings(c: Config, states: seq<State>, turns: seq<Turn>, n: nat, ledger: Ledger,
                                               digest: string -> Digest)
    requires IsRun(c, states, turns) && n <= |turns|
    ensures var r := Run(c, Books(states[0].cache, ledger), Endings(states, turns, n), digest);
            r.Some? ==> r.value.cache == states[n].cache
  {
    hide Step; hide Ends; hide ListsSleepers; hide CacheAfter; hide Run; hide After; hide Legal;
    var b := Books(states[0].cache, ledger);
    if n == 0 {
      NoEnding(c, b, digest);
    } else {
      CachesFollowEndings(c, states, turns, n - 1, ledger, digest);
      assert Legal(c, states[n - 1], turns[n - 1]);
      LegalSteps(c, states[n - 1], turns[n - 1]);
      OnlyCompletionsTouchCaches(c, states[n - 1], turns[n - 1]);
      if Ends(states[n - 1], turns[n - 1]) {
        var t := EndingOf(states[n - 1], turns[n - 1]);
        OneMoreEnding(c, b, Endings(states, turns, n - 1), t, digest);
      } else {
        assert Endings(states, turns, n) == Endings(states, turns, n - 1);
      }
    }
  }

  lemma LegalSteps(c: Config, s: State, turn: Turn)
    requires Legal(c, s, turn)
    ensures Step(c, s, turn.event, turn.answers).Ok?
  {
  }

  lemma {:induction false} NoEnding(c: Config, b: Books, digest: string -> Digest)
    ensures Run(c, b, [], digest) == Some(b)
  {
  }

  lemma {:induction false} OneMoreEnding(c: Config, b: Books, turns: seq<Ending>, t: Ending, digest: string -> Digest)
    ensures var front, r := Run(c, b, turns, digest), Run(c, b, turns + [t], digest);
            r.Some? ==> front.Some? && CacheAfter(c, front.value.cache, t.item, t.mutation) == KernelModel.Ok(r.value.cache)
  {
    hide Booked; hide CacheAfter;
    assert (turns + [t])[..|turns|] == turns;
  }

  /** After `n` turns the ledger tells the kernel's caches, unless the hook has refused. */
  ghost predicate TellsKernel(c: Config, states: seq<State>, turns: seq<Turn>, n: nat, digest: string -> Digest)
    requires n <= |turns| < |states|
  {
    var r := Run(c, Books(states[0].cache, map[]), Endings(states, turns, n), digest);
    r.Some? ==> AllAgree(Books(states[n].cache, r.value.ledger), digest)
  }

  lemma {:induction false} EndingsArePrefix(states: seq<State>, turns: seq<Turn>, n: nat, m: nat)
    requires n <= m <= |turns| <= |states|
    ensures var e := Endings(states, turns, m);
            |Endings(states, turns, n)| <= |e| && Endings(states, turns, n) == e[..|Endings(states, turns, n)|]
    decreases m
  {
    if n < m { EndingsArePrefix(states, turns, n, m - 1); }
  }

  /** Every count of completions is met at some turn. */
  lemma {:induction false} TurnOfEnding(states: seq<State>, turns: seq<Turn>, m: nat, i: nat) returns (n: nat)
    requires m <= |turns| <= |states| && i <= |Endings(states, turns, m)|
    ensures n <= m && |Endings(states, turns, n)| == i
    decreases m
  {
    if i == |Endings(states, turns, m)| { n := m; } else { n := TurnOfEnding(states, turns, m - 1, i); }
  }

  lemma {:induction false} TellsAsAgrees(c: Config, states: seq<State>, turns: seq<Turn>, n: nat,
                                         digest: string -> Digest)
    requires IsRun(c, states, turns) && n <= |turns|
    ensures var e := Endings(states, turns, |turns|);
            && |Endings(states, turns, n)| <= |e|
            && (TellsKernel(c, states, turns, n, digest) <==>
                AgreesAfter(c, Books(states[0].cache, map[]), e, |Endings(states, turns, n)|, digest))
  {
    hide Run; hide Endings; hide IsRun;
    CachesFollowEndings(c, states, turns, n, map[], digest);
    assert |states| == |turns| + 1 by { RunLength(c, states, turns); }
    EndingsArePrefix(states, turns, n, |turns|);
  }

  lemma RunLength(c: Config, states: seq<State>, turns: seq<Turn>)
    requires IsRun(c, states, turns)
    ensures |states| == |turns| + 1
  {
  }

  ghost predicate TellsThroughout(c: Config, states: seq<State>, turns: seq<Turn>, digest: string -> Digest)
    requires |turns| < |states|
  {
    forall n :: 0 <= n <= |turns| ==> TellsKernel(c, states, turns, n, digest)
  }

  lemma {:induction false} TellsIffAgrees(c: Config, states: seq<State>, turns: seq<Turn>, digest: string -> Digest)
    requires IsRun(c, states, turns) && |states| == |turns| + 1
    ensures TellsThroughout(c, states, turns, digest) <==>
            AgreesThroughout(c, Books(states[0].cache, map[]), Endings(states, turns, |turns|), digest)
  {
    hide IsRun; hide TellsKernel; hide AgreesAfter; hide Endings;
    var e, b := Endings(states, turns, |turns|), Books(states[0].cache, map[]);
    if TellsThroughout(c, states, turns, digest) {
      forall i | 0 <= i <= |e| ensures AgreesAfter(c, b, e, i, digest) {
        var n := TurnOfEnding(states, turns, |turns|, i);
        TellsAsAgrees(c, states, turns, n, digest);
      }
    }
    if AgreesThroughout(c, b, e, digest) {
      forall n | 0 <= n <= |turns| ensures TellsKernel(c, states, turns, n, digest) {
        TellsAsAgrees(c, states, turns, n, digest);
      }
    }
  }

  /** Beside every run of the kernel from its start: the ledger tells the kernel's caches after
      every turn if and only if every completion is applied by the kernel or skipped in balance. */
  lemma {:induction false} LedgerTellsKernelIff(c: Config, workload: seq<Request>, states: seq<State>,
                                                turns: seq<Turn>, digest: string -> Digest)
    requires IsRun(c, states, turns) && states[0] == Initial(c, workload)
    ensures var e := Endings(states, turns, |turns|);
            TellsThroughout(c, states, turns, digest)
            <==> (forall i :: 0 <= i < |e| ==> BalancedAt(c, Books(states[0].cache, map[]), e, i, digest))
  {
    hide IsRun; hide TellsThroughout; hide AgreesAfter; hide BalancedAt; hide Endings; hide AllAgree; hide Slots;
    RunLength(c, states, turns);
    var e, b := Endings(states, turns, |turns|), Books(states[0].cache, map[]);
    assert b == Books(map n | n in c.prefillNodes :: {}, map[]);
    FreshBooksAgree(c.prefillNodes, digest);
    LedgerAgreesThroughoutIff(c, b, e, digest);
    TellsIffAgrees(c, states, turns, digest);
  }
}
