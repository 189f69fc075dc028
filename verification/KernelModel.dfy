/** The causal discrete-event kernel (src/prefill_cache_sim/m12_kernel.py): what it is
    configured with, what a policy may answer, and what one prefill costs.
 */
module KernelModel {
  import opened Options

  /** Logical request identity and attempt index. */
  type Key = (string, int)

  datatype CostModel = CostModel(prefillPerToken: real, kvsPerToken: real, kvsBytesPerToken: nat, decodePerToken: real)

  datatype Config = Config(
    observationStart: real,
    observationEnd: real,
    prefillNodes: set<string>,
    decodeNodes: set<string>,
    tiers: set<string>,
    cacheCapacity: nat,
    cost: CostModel,
    retryBudget: nat)

  ghost predicate ValidConfig(c: Config) {
    && 0.0 <= c.observationStart < c.observationEnd
    && c.prefillNodes != {} && c.decodeNodes != {} && c.cacheCapacity > 0
    && c.cost.prefillPerToken >= 0.0 && c.cost.kvsPerToken >= 0.0 && c.cost.decodePerToken >= 0.0
  }

  /** One block of a request's prompt: its cache key and its size in tokens. */
  datatype Block = Block(key: string, tokens: nat)

  datatype Request = Request(id: string, arrivalWork: real, tier: string, inputTokens: nat, prefix: seq<Block>)

  function TokensOf(prefix: seq<Block>): nat {
    if prefix == [] then 0 else prefix[0].tokens + TokensOf(prefix[1..])
  }

  ghost predicate ValidRequest(r: Request) {
    TokensOf(r.prefix) == r.inputTokens && forall b :: b in r.prefix ==> b.tokens > 0
  }

  function KeysOf(prefix: seq<Block>): set<string> {
    set b | b in prefix :: b.key
  }

  datatype Terminal = Completed | Failed | Aborted

  /** Policy-issued physical work. */
  datatype Spec = Spec(
    id: string,
    index: nat,
    arrivalWork: real,
    pNode: string,
    dNode: string,
    emittedTokens: nat,
    remoteKeys: set<string>,
    terminal: Terminal,
    prefillReusable: bool)

  /** The record of no attempt at all. */
  const NO_ATTEMPT := Spec("", 0, 0.0, "", "", 0, {}, Completed, true)

  datatype Mutation = Mutation(admit: bool, evictKeys: set<string>)

  /** The record of an attempt.  An abort replaces `spec`; `plan` is history, the work as it was
      issued. */
  datatype Pending = Pending(
    request: Request,
    spec: Spec,
    plan: Spec,
    attemptReady: Option<real>,
    prefillStart: Option<real>,
    prefillFinish: Option<real>,
    prefillWork: real,
    kvsWork: real,
    kvsBytes: nat,
    decodeStart: Option<real>,
    finish: Option<real>)

  function NewPending(r: Request, spec: Spec): Pending {
    Pending(r, spec, spec, None, None, None, 0.0, 0.0, 0, None, None)
  }

  datatype Error =
    | TooManyPlans | UnknownLogical | DuplicateAttempt | EarlyAttempt | UnknownPNode | UnknownDNode
    | FenceNotCausal | LeaseNotPartial | NoDecodeCost | NotTokenAligned | NoPartialProgress
    | NotResident | OverCapacity | RetryBudgetExhausted | MissingKey

  datatype Result<+T> = Ok(value: T) | Raised(error: Error)

  function Max(x: real, y: real): real { if x >= y then x else y }

  function MaximumPrefillWork(c: Config, r: Request): real {
    r.inputTokens as real * c.cost.prefillPerToken
  }

  /** The policy's plans are checked before the kernel accepts any of them. */
  function ValidatePlan(c: Config, r: Request, spec: Spec, issued: set<Key>): Option<Error> {
    if spec.id != r.id then Some(UnknownLogical)
    else if (spec.id, spec.index) in issued then Some(DuplicateAttempt)
    else if spec.arrivalWork < r.arrivalWork then Some(EarlyAttempt)
    else if spec.pNode !in c.prefillNodes then Some(UnknownPNode)
    else if spec.dNode !in c.decodeNodes then Some(UnknownDNode)
    else None
  }

  // --- pricing a prefill ----------------------------------------------------

  predicate Elsewhere(cache: map<string, set<string>>, node: string, key: string) {
    exists n :: n in cache && n != node && key in cache[n]
  }

  predicate Usable(spec: Spec, cache: map<string, set<string>>, b: Block)
    requires spec.pNode in cache
  {
    b.key in cache[spec.pNode] || (b.key in spec.remoteKeys && Elsewhere(cache, spec.pNode, b.key))
  }

  /** How many leading blocks need no prefill: all of them usable, and the next one not. */
  ghost predicate CoveredBlocks(spec: Spec, cache: map<string, set<string>>, prefix: seq<Block>, n: nat)
    requires spec.pNode in cache
  {
    && n <= |prefix|
    && (forall i :: 0 <= i < n ==> Usable(spec, cache, prefix[i]))
    && (n < |prefix| ==> !Usable(spec, cache, prefix[n]))
  }

  function CoveredCount(spec: Spec, cache: map<string, set<string>>, prefix: seq<Block>): (n: nat)
    requires spec.pNode in cache
    ensures CoveredBlocks(spec, cache, prefix, n)
  {
    if prefix == [] || !Usable(spec, cache, prefix[0]) then 0
    else 1 + CoveredCount(spec, cache, prefix[1..])
  }

  function RemoteTokens(local: set<string>, prefix: seq<Block>): (t: nat)
    ensures t <= TokensOf(prefix)
  {
    if prefix == [] then 0
    else (if prefix[0].key in local then 0 else prefix[0].tokens) + RemoteTokens(local, prefix[1..])
  }

  lemma {:induction false} TokensConcat(a: seq<Block>, b: seq<Block>)
    ensures TokensOf(a + b) == TokensOf(a) + TokensOf(b)
  {
    if a == [] {
      assert a + b == b;
    } else {
      assert (a + b)[1..] == a[1..] + b;
      TokensConcat(a[1..], b);
    }
  }

  lemma {:induction false} RemoteConcat(local: set<string>, a: seq<Block>, b: seq<Block>)
    ensures RemoteTokens(local, a + b) == RemoteTokens(local, a) + RemoteTokens(local, b)
  {
    if a == [] {
      assert a + b == b;
    } else {
      assert (a + b)[1..] == a[1..] + b;
      RemoteConcat(local, a[1..], b);
    }
  }

  lemma {:induction false} TokensOfPrefix(prefix: seq<Block>, n: nat)
    requires n <= |prefix|
    ensures TokensOf(prefix[..n]) <= TokensOf(prefix)
  {
    assert prefix == prefix[..n] + prefix[n..];
    TokensConcat(prefix[..n], prefix[n..]);
  }

  /** The prefill of `item` against the node caches. */
  function Priced(c: Config, item: Pending, cache: map<string, set<string>>): Pending
    requires item.spec.pNode in cache
  {
    var covered := item.request.prefix[..CoveredCount(item.spec, cache, item.request.prefix)];
    var remote := RemoteTokens(cache[item.spec.pNode], covered);
    item.(prefillWork := (item.request.inputTokens - TokensOf(covered)) as real * c.cost.prefillPerToken,
          kvsWork := remote as real * c.cost.kvsPerToken,
          kvsBytes := remote * c.cost.kvsBytesPerToken)
  }

  /** A prefill never costs less than nothing nor more than the whole prompt, and never
      moves more over the store than it covers. */
  lemma PricedWithinPrompt(c: Config, item: Pending, cache: map<string, set<string>>)
    requires ValidConfig(c) && ValidRequest(item.request) && item.spec.pNode in cache
    ensures var p := Priced(c, item, cache);
            && 0.0 <= p.prefillWork <= MaximumPrefillWork(c, item.request)
            && 0.0 <= p.kvsWork
  {
    hide TokensOf; hide RemoteTokens; hide CoveredCount;
    var prefix := item.request.prefix;
    var n := CoveredCount(item.spec, cache, prefix);
    TokensOfPrefix(prefix, n);
    var uncached := item.request.inputTokens - TokensOf(prefix[..n]);
    ScaledBetween(uncached, item.request.inputTokens, c.cost.prefillPerToken);
    ScaledBetween(0, RemoteTokens(cache[item.spec.pNode], prefix[..n]), c.cost.kvsPerToken);
  }

  lemma ScaledBetween(lo: nat, hi: nat, w: real)
    requires w >= 0.0 && lo <= hi
    ensures 0.0 <= lo as real * w <= hi as real * w
  {
    assert (hi - lo) as real * w >= 0.0;
    assert hi as real * w == lo as real * w + (hi - lo) as real * w;
  }

  lemma ScaledBelow(lo: nat, hi: nat, w: real)
    requires w > 0.0 && lo < hi
    ensures lo as real * w < hi as real * w
  {
    assert (hi - lo) as real * w > 0.0;
    assert hi as real * w == lo as real * w + (hi - lo) as real * w;
  }

  lemma {:induction false} OneMoreBlock(local: set<string>, prefix: seq<Block>, n: nat)
    requires n < |prefix|
    ensures TokensOf(prefix[..n + 1]) == TokensOf(prefix[..n]) + prefix[n].tokens
    ensures RemoteTokens(local, prefix[..n + 1])
            == RemoteTokens(local, prefix[..n]) + (if prefix[n].key in local then 0 else prefix[n].tokens)
  {
    assert prefix[..n + 1] == prefix[..n] + [prefix[n]];
    TokensConcat(prefix[..n], [prefix[n]]);
    RemoteConcat(local, prefix[..n], [prefix[n]]);
  }

  lemma CoveredIsUnique(spec: Spec, cache: map<string, set<string>>, prefix: seq<Block>, m: nat, n: nat)
    requires spec.pNode in cache
    requires CoveredBlocks(spec, cache, prefix, m) && CoveredBlocks(spec, cache, prefix, n)
    ensures m == n
  {
  }

  /** The loop of `_price_prefill`: walk the prompt until the first unusable block. */
  method PricePrefill(c: Config, item: Pending, cache: map<string, set<string>>) returns (r: Pending)
    requires item.spec.pNode in cache
    ensures r == Priced(c, item, cache)
  {
    hide TokensOf;
    hide RemoteTokens;
    var prefix, local := item.request.prefix, cache[item.spec.pNode];
    var remoteTokens, coveredTokens, n, open := 0, 0, 0, true;
    NothingCovered(local, prefix);
    while open && n < |prefix|
      invariant n <= |prefix|
      invariant forall i :: 0 <= i < n ==> Usable(item.spec, cache, prefix[i])
      invariant !open ==> n < |prefix| && !Usable(item.spec, cache, prefix[n])
      invariant coveredTokens == TokensOf(prefix[..n])
      invariant remoteTokens == RemoteTokens(local, prefix[..n])
      decreases open, |prefix| - n
    {
      OneMoreBlock(local, prefix, n);
      if prefix[n].key in local {
        coveredTokens, n := coveredTokens + prefix[n].tokens, n + 1;
      } else if prefix[n].key in item.spec.remoteKeys && Elsewhere(cache, item.spec.pNode, prefix[n].key) {
        coveredTokens, remoteTokens, n := coveredTokens + prefix[n].tokens, remoteTokens + prefix[n].tokens, n + 1;
      } else {
        open := false;
      }
    }
    CoveredIsUnique(item.spec, cache, prefix, n, CoveredCount(item.spec, cache, prefix));
    r := item.(prefillWork := (item.request.inputTokens - coveredTokens) as real * c.cost.prefillPerToken,
               kvsWork := remoteTokens as real * c.cost.kvsPerToken,
               kvsBytes := remoteTokens * c.cost.kvsBytesPerToken);
  }

  lemma {:induction false} NothingCovered(local: set<string>, prefix: seq<Block>)
    ensures TokensOf(prefix[..0]) == 0 && RemoteTokens(local, prefix[..0]) == 0
  {
  }

  // --- one cache mutation ---------------------------------------------------

  /** Completion-time admission and eviction; also whether anything changed. */
  function Mutated(c: Config, resident: set<string>, keys: set<string>, m: Mutation): Result<(set<string>, bool)> {
    if !(m.evictKeys <= resident) then Raised(NotResident)
    else
      var kept := resident - m.evictKeys;
      if !m.admit then Ok((kept, m.evictKeys != {}))
      else if |kept| + |keys - kept| > c.cacheCapacity then Raised(OverCapacity)
      else Ok((kept + keys, m.evictKeys != {} || keys - kept != {}))
  }

  /** Exact token count of a stretch of decode work. */
  function ElapsedTokens(work: real, perToken: real): Result<int> {
    if perToken <= 0.0 then Raised(NoDecodeCost)
    else
      var tokens := (work / perToken).Floor;
      if tokens as real * perToken != work then Raised(NotTokenAligned) else Ok(tokens)
  }

  /** A whole number of tokens is recovered exactly. */
  lemma ElapsedExactly(tokens: nat, perToken: real)
    requires perToken > 0.0
    ensures ElapsedTokens(tokens as real * perToken, perToken) == Ok(tokens)
  {
    assert (tokens as real * perToken) / perToken == tokens as real;
  }
}
