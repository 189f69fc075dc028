/** What a prefill costs, told by the prompt and the node caches alone
    (src/prefill_cache_sim/m12_kernel.py:1028-1053, 586).
 */
module PrefillPrices {
  import opened Options
  import opened KernelModel
  import opened KernelSteps

  /** The attempt need not prefill the block: its own node holds it, or it asked for the key and
      another node holds it. */
  ghost predicate Reusable(spec: Spec, cache: map<string, set<string>>, b: Block)
    requires spec.pNode in cache
  {
    || b.key in cache[spec.pNode]
    || (b.key in spec.remoteKeys && exists n :: n in cache.Keys - {spec.pNode} && b.key in cache[n])
  }

  /** The longest run of leading blocks that can be reused is `n` blocks long. */
  ghost predicate Reuses(spec: Spec, cache: map<string, set<string>>, prefix: seq<Block>, n: nat)
    requires spec.pNode in cache
  {
    && n <= |prefix|
    && (forall i :: 0 <= i < n ==> Reusable(spec, cache, prefix[i]))
    && (n < |prefix| ==> !Reusable(spec, cache, prefix[n]))
  }

  /** Total size of the first `n` blocks of a prompt. */
  function Size(prefix: seq<Block>, n: nat): nat
    requires n <= |prefix|
  {
    if n == 0 then 0 else Size(prefix, n - 1) + prefix[n - 1].tokens
  }

  /** Total size of those among them the node does not hold itself. */
  function Fetched(local: set<string>, prefix: seq<Block>, n: nat): nat
    requires n <= |prefix|
  {
    if n == 0 then 0
    else Fetched(local, prefix, n - 1) + (if prefix[n - 1].key !in local then prefix[n - 1].tokens else 0)
  }

  lemma {:induction false} SizesAgree(local: set<string>, prefix: seq<Block>, n: nat)
    requires n <= |prefix|
    ensures TokensOf(prefix[..n]) == Size(prefix, n) && RemoteTokens(local, prefix[..n]) == Fetched(local, prefix, n)
  {
    if n == 0 {
      NothingCovered(local, prefix);
    } else {
      SizesAgree(local, prefix, n - 1);
      OneMoreBlock(local, prefix, n - 1);
    }
  }

  lemma UsableIsReusable(spec: Spec, cache: map<string, set<string>>, b: Block)
    requires spec.pNode in cache
    ensures Usable(spec, cache, b) <==> Reusable(spec, cache, b)
  {
    if Elsewhere(cache, spec.pNode, b.key) {
      var m :| m in cache && m != spec.pNode && b.key in cache[m];
      assert m in cache.Keys - {spec.pNode};
    }
  }

  lemma {:induction false} CoveredAreReused(spec: Spec, cache: map<string, set<string>>, prefix: seq<Block>, n: nat)
    requires spec.pNode in cache && Reuses(spec, cache, prefix, n)
    ensures CoveredCount(spec, cache, prefix) == n
  {
    forall b ensures Usable(spec, cache, b) <==> Reusable(spec, cache, b) { UsableIsReusable(spec, cache, b); }
    CoveredIsUnique(spec, cache, prefix, n, CoveredCount(spec, cache, prefix));
  }

  /** The price: with `n` leading blocks reused, the tokens behind them are prefilled, and the
      reused ones the node does not hold itself cross the store. */
  ghost predicate Pays(cost: CostModel, item: Pending, local: set<string>, n: nat)
    requires n <= |item.request.prefix|
  {
    var fetched := Fetched(local, item.request.prefix, n);
    && item.prefillWork + Size(item.request.prefix, n) as real * cost.prefillPerToken
       == item.request.inputTokens as real * cost.prefillPerToken
    && item.kvsWork == fetched as real * cost.kvsPerToken
    && item.kvsBytes == fetched * cost.kvsBytesPerToken
  }

  lemma PriceOfPrefill(c: Config, item: Pending, cache: map<string, set<string>>, n: nat)
    requires item.spec.pNode in cache && Reuses(item.spec, cache, item.request.prefix, n)
    ensures Pays(c.cost, Priced(c, item, cache), cache[item.spec.pNode], n)
  {
    hide TokensOf; hide RemoteTokens; hide CoveredCount; hide Fetched; hide Size; hide Reuses;
    var prefix := item.request.prefix;
    CoveredAreReused(item.spec, cache, prefix, n);
    SizesAgree(cache[item.spec.pNode], prefix, n);
    Distributes(item.request.inputTokens, Size(prefix, n), c.cost.prefillPerToken);
  }

  lemma Distributes(all: nat, some: nat, w: real)
    ensures (all - some) as real * w + some as real * w == all as real * w
  {
  }

  /** A prompt whose first block cannot be reused is prefilled whole, and nothing is fetched. */
  lemma ColdPromptPaysInFull(c: Config, item: Pending, cache: map<string, set<string>>)
    requires item.spec.pNode in cache
    requires item.request.prefix != [] ==> !Reusable(item.spec, cache, item.request.prefix[0])
    ensures var p := Priced(c, item, cache);
            && p.prefillWork == item.request.inputTokens as real * c.cost.prefillPerToken
            && p.prefillWork == MaximumPrefillWork(c, item.request)
            && p.kvsWork == 0.0 && p.kvsBytes == 0
  {
    PriceOfPrefill(c, item, cache, 0);
  }

  /** A prompt all of whose blocks can be reused needs no prefill at all. */
  lemma CachedPromptIsFree(c: Config, item: Pending, cache: map<string, set<string>>)
    requires item.spec.pNode in cache && ValidRequest(item.request)
    requires forall b :: b in item.request.prefix ==> Reusable(item.spec, cache, b)
    ensures Priced(c, item, cache).prefillWork == 0.0
  {
    hide Reusable; hide Priced; hide Size; hide Fetched; hide TokensOf;
    var prefix := item.request.prefix;
    PriceOfPrefill(c, item, cache, |prefix|);
    PricedSame(c, item, cache);
    SizesAgree({}, prefix, |prefix|);
    assert prefix[..|prefix|] == prefix;
    assert Size(prefix, |prefix|) == item.request.inputTokens;
  }

  /** Blocks the node holds itself are never fetched. */
  lemma {:induction false} OwnBlocksAreNotFetched(local: set<string>, prefix: seq<Block>, n: nat)
    requires n <= |prefix| && forall i :: 0 <= i < n ==> prefix[i].key in local
    ensures Fetched(local, prefix, n) == 0
  {
    if n > 0 { OwnBlocksAreNotFetched(local, prefix, n - 1); }
  }

  /** Each leading block more that can be reused lowers the price by exactly that block. */
  lemma OneMoreReusedBlock(c: Config, item: Pending, less: map<string, set<string>>, more: map<string, set<string>>, n: nat)
    requires item.spec.pNode in less && Reuses(item.spec, less, item.request.prefix, n) && n < |item.request.prefix|
    requires item.spec.pNode in more && Reuses(item.spec, more, item.request.prefix, n + 1)
    ensures Priced(c, item, more).prefillWork + item.request.prefix[n].tokens as real * c.cost.prefillPerToken
            == Priced(c, item, less).prefillWork
  {
    hide Reuses; hide Priced;
    PriceOfPrefill(c, item, less, n);
    PriceOfPrefill(c, item, more, n + 1);
    PricedSame(c, item, less);
    PricedSame(c, item, more);
    var size, last, w := Size(item.request.prefix, n), item.request.prefix[n].tokens, c.cost.prefillPerToken;
    assert (size + last) as real * w == size as real * w + last as real * w;
  }

  /** A prefill that starts now is over once its tokens are prefilled and fetched: the record, the
      node and the finish event all say so. */
  lemma PrefillTakesItsPrice(c: Config, s: State, k: Key, n: nat)
    requires OnPrefillStart(c, s, k).Ok?
    requires Reuses(s.pending[k].spec, s.cache, s.pending[k].request.prefix, n)
    ensures var t, v := OnPrefillStart(c, s, k).value, s.pending[k].spec.pNode;
            && k in t.pending && v in t.pNodes
            && Pays(c.cost, t.pending[k], s.cache[v], n)
            && t.pending[k].prefillStart == Some(s.now)
            && var finish := s.now + t.pending[k].prefillWork + t.pending[k].kvsWork;
               && t.pending[k].prefillFinish == Some(finish) && t.pNodes[v].available == finish
               && t.queue == s.queue + {Event(finish, PrefillFinish, s.serial, Concerns(k))}
  {
    hide Reuses; hide Priced; hide Fetched; hide Size; hide QueueWork; hide AllPending; hide Moved;
    var item := s.pending[k].(prefillStart := Some(s.now));
    PriceOfPrefill(c, item, s.cache, n);
    PricedSame(c, item, s.cache);
  }

  lemma PricedSame(c: Config, item: Pending, cache: map<string, set<string>>)
    requires item.spec.pNode in cache
    ensures var p := Priced(c, item, cache);
            p == item.(prefillWork := p.prefillWork, kvsWork := p.kvsWork, kvsBytes := p.kvsBytes)
  {
  }
}
