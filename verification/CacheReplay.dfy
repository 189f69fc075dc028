/** Cache-only replay (src/prefill_cache_sim/simulator.py:295-329) and the analyzer's
    infinite-cache ceiling (src/prefill_cache_sim/analyzer.py:68-92).
 */
module CacheReplay {
  import opened Lists
  import opened EvictionPolicies
  import opened NodeCache
  import opened RecencyStack

  datatype Request = Request(prefix: seq<Block>, at: real)

  /** One request on one node: look up, then place with the hits pinned. */
  function Served(capacity: nat, s: CacheState, r: Request): CacheState {
    var hits := r.prefix[..HitCount(s.resident, r.prefix)];
    Placed(capacity, LookedUp(s, r.prefix), r.prefix, r.at, Elements(hits))
  }

  function Replay(capacity: nat, s: CacheState, requests: seq<Request>): CacheState
    decreases |requests|
  {
    if requests == [] then s
    else Served(capacity, Replay(capacity, s, requests[..|requests| - 1]), requests[|requests| - 1])
  }

  /** All block references of a replay, in order. */
  function References(requests: seq<Request>): seq<Block>
    decreases |requests|
  {
    if requests == [] then [] else References(requests[..|requests| - 1]) + requests[|requests| - 1].prefix
  }

  ghost predicate Chronological(requests: seq<Request>) {
    forall i, j :: 0 <= i <= j < |requests| ==> requests[i].at <= requests[j].at
  }

  lemma ServedKeeps(capacity: nat, s: CacheState, r: Request)
    requires Good(s, r.at) && |s.resident| <= capacity
    ensures Good(Served(capacity, s, r), r.at) && |Served(capacity, s, r).resident| <= capacity
  {
    hide Good; hide LookedUp; hide PlaceAll;
    LookupKeepsGood(s, r.prefix, r.at);
    PlaceKeeps(capacity, LookedUp(s, r.prefix), r.prefix, r.at, Elements(r.prefix[..HitCount(s.resident, r.prefix)]));
  }

  lemma {:induction false} ReplayKeeps(capacity: nat, policy: Policy, requests: seq<Request>, now: real)
    requires Sound(policy) && Tracked(policy) == {} && Chronological(requests)
    requires requests != [] ==> requests[|requests| - 1].at <= now
    ensures var s := Replay(capacity, Fresh(policy), requests); Good(s, now) && |s.resident| <= capacity
    decreases |requests|
  {
    hide Good; hide Served; hide Sound; hide Tracked;
    if requests == [] {
      FreshIsGood(policy, now);
    } else {
      var front, r := requests[..|requests| - 1], requests[|requests| - 1];
      ReplayKeeps(capacity, policy, front, r.at);
      ServedKeeps(capacity, Replay(capacity, Fresh(policy), front), r);
      TimePasses(Served(capacity, Replay(capacity, Fresh(policy), front), r), r.at, now);
    }
  }

  // --- LRU ------------------------------------------------------------------

  lemma {:induction false} LruTouches(s: CacheState, order: seq<Block>, blocks: seq<Block>, c: nat)
    requires s.policy == Lru(order) && forall b :: b in blocks ==> b in order
    ensures TouchAll(s, blocks).policy == Lru(LruSteps(order, blocks, c))
    ensures Elements(LruSteps(order, blocks, c)) == Elements(order)
    decreases |blocks|
  {
    if blocks != [] {
      var front, b := blocks[..|blocks| - 1], blocks[|blocks| - 1];
      LruTouches(s, order, front, c);
      var o := LruSteps(order, front, c);
      assert b in Elements(order) && b in Elements(o);
      WithoutElements(o, b);
      assert Elements(ToEnd(o, b)) == Elements(Without(o, b)) + {b};
    }
  }

  /** One LRU reference, seen on a list whose end `back` holds the blocks referenced so far. */
  lemma StepSplits(front: seq<Block>, back: seq<Block>, b: Block, c: nat) returns (front': seq<Block>, back': seq<Block>)
    requires NoRepeats(front + back)
    requires b in front + back || |front + back| < c || front != []
    ensures LruStep(front + back, b, c) == front' + back' && Elements(back') == Elements(back) + {b}
  {
    hide NoRepeats; hide Without;
    NoRepeatsConcat(front, back);
    if b in back {
      ReferenceInTop(front, back, b);
      ToEndDistinct(back, b);
      front', back' := front, ToEnd(back, b);
      assert Elements(back) + {b} == Elements(back);
    } else if b in front {
      ReferenceBelow(front, back, b);
      NoRepeatsMore(back, b);
      front', back' := Without(front, b), back + [b];
    } else {
      NoRepeatsMore(back, b);
      back' := back + [b];
      if |front + back| < c || front + back == [] {
        front' := front;
        assert front + back + [b] == front + (back + [b]);
      } else {
        front' := front[1..];
        assert (front + back)[1..] + [b] == front[1..] + (back + [b]);
      }
    }
  }

  lemma LruMissWithRoom(c: nat, p: Placing, order: seq<Block>, b: Block, at: real, pinned: set<Block>)
    requires p.cache.policy == Lru(order) && b !in p.cache.resident && b !in order && |p.cache.resident| < c
    ensures var q := PlaceBlock(c, p, b, at, pinned);
            && q.cache.policy == Lru(order + [b]) && q.cache.resident == p.cache.resident + {b} && q.mine == p.mine + {b}
  {
    hide FirstEligible; hide EvictAll;
    NothingEligible(order, 0, p.cache.resident, pinned + p.mine);
    NoVictims(p.cache, at);
  }

  lemma {:induction false} LruMissWhenFull(c: nat, p: Placing, order: seq<Block>, b: Block, at: real,
                                           pinned: set<Block>)
    requires p.cache.policy == Lru(order) && b !in p.cache.resident && b !in order && |p.cache.resident| == c
    requires NoRepeats(order) && order != [] && order[0] in p.cache.resident && order[0] !in pinned + p.mine
    ensures PlaceBlock(c, p, b, at, pinned).cache.policy == Lru(order[1..] + [b])
  {
    hide FirstEligible; hide EvictAll; hide NoRepeats;
    OldestGoes(order, p.cache.resident, pinned + p.mine);
    EvictsOldest(p.cache, order, at);
  }

  lemma {:induction false} TrackedInLru(s: CacheState, order: seq<Block>, at: real)
    requires Good(s, at) && s.policy == Lru(order)
    ensures NoRepeats(order) && Elements(order) == s.resident && |s.resident| == |order|
  {
    hide TellsAll; hide NoRepeats;
    NoRepeatsCount(order);
  }

  /** With room for the whole request, the block an LRU placement evicts is the oldest. */
  lemma {:induction false} LruPlacesBlock(c: nat, p: Placing, b: Block, at: real, pinned: set<Block>,
                                          front: seq<Block>, back: seq<Block>)
    requires Good(p.cache, at) && p.cache.policy == Lru(front + back) && |p.cache.resident| <= c
    requires b !in p.cache.resident ==> pinned + p.mine <= Elements(back) && |Elements(back) + {b}| <= c
    ensures PlaceBlock(c, p, b, at, pinned).cache.policy == Lru(LruStep(front + back, b, c))
    ensures b in front + back || |front + back| < c || front != []
    ensures NoRepeats(front + back)
  {
    hide Good; hide NoRepeats; hide PlaceBlock;
    var order, s := front + back, p.cache;
    TrackedInLru(s, order, at);
    NoRepeatsConcat(front, back);
    assert b in order <==> b in Elements(order);
    if b in order {
      HitKeepsPlacing(c, p, order, b, at, pinned);
    } else if |order| < c {
      LruMissWithRoom(c, p, order, b, at, pinned);
    } else {
      NoRepeatsCount(back);
      assert |Elements(back) + {b}| == |back| + 1;
      assert order[0] == front[0] && front[0] in Elements(front) && order[0] in Elements(order);
      LruMissWhenFull(c, p, order, b, at, pinned);
    }
  }

  lemma HitKeepsPlacing(c: nat, p: Placing, order: seq<Block>, b: Block, at: real, pinned: set<Block>)
    requires p.cache.policy == Lru(order) && b in order && b in p.cache.resident
    ensures PlaceBlock(c, p, b, at, pinned).cache.policy == Lru(ToEnd(order, b))
  {
  }

  lemma {:induction false} NoVictims(s: CacheState, at: real)
    ensures EvictAll(s, [], at) == s
  {
  }

  lemma {:induction false} OldestGoes(order: seq<Block>, resident: set<Block>, kept: set<Block>)
    requires order != [] && order[0] in resident && order[0] !in kept
    ensures FirstEligible(order, 1, resident, kept) == [order[0]]
  {
    NothingEligible(order[1..], 0, resident, kept);
  }

  lemma {:induction false} EvictsOldest(s: CacheState, order: seq<Block>, at: real)
    requires s.policy == Lru(order) && order != [] && NoRepeats(order)
    ensures EvictAll(s, [order[0]], at).policy == Lru(order[1..])
    ensures EvictAll(s, [order[0]], at).resident == s.resident - {order[0]}
  {
    WithoutAbsent(order[1..], order[0]);
    NoVictims(s, at);
    assert [order[0]][..0] == [];
  }

  lemma MineIsPlaced(c: nat, p: Placing, b: Block, at: real, pinned: set<Block>)
    ensures p.mine <= PlaceBlock(c, p, b, at, pinned).mine <= p.mine + {b}
  {
  }

  /** A placement whose hits are its leading resident blocks is a run of LRU references. */
  lemma {:induction false} LruPlaces(c: nat, s: CacheState, order: seq<Block>, prefix: seq<Block>, hits: nat, n: nat, at: real)
    returns (front: seq<Block>, back: seq<Block>)
    requires Good(s, at) && s.policy == Lru(order) && |s.resident| <= c
    requires hits <= |prefix| && Elements(prefix[..hits]) <= s.resident
    requires n <= |prefix| && |Elements(prefix)| <= c
    ensures var p := PlaceAll(c, s, prefix[..n], at, Elements(prefix[..hits]));
            && p.cache.policy == Lru(LruSteps(order, prefix[..n], c)) && p.mine <= Elements(prefix[..n])
            && LruSteps(order, prefix[..n], c) == front + back && Elements(back) == Elements(prefix[..n])
    decreases n
  {
    hide Good; hide PlaceBlock; hide LruStep; hide Elements; hide NoRepeats;
    if n == 0 {
      NothingListed<Block>();
      front, back := order, [];
      assert order == front + back && prefix[..0] == [];
    } else {
      var done, b, pinned := prefix[..n - 1], prefix[n - 1], Elements(prefix[..hits]);
      assert prefix[..n][..n - 1] == done && prefix[..n] == done + [b];
      var f, k := LruPlaces(c, s, order, prefix, hits, n - 1, at);
      var p := PlaceAll(c, s, done, at, pinned);
      PlaceKeeps(c, s, done, at, pinned);
      assert b !in p.cache.resident ==> n - 1 >= hits by { HitsStay(s.resident, p.cache.resident, prefix, hits, n - 1); }
      PrefixElements(prefix, hits, n - 1);
      LruPlacesBlock(c, p, b, at, pinned, f, k);
      MineIsPlaced(c, p, b, at, pinned);
      front, back := StepSplits(f, k, b, c);
    }
  }

  lemma HitsStay(was: set<Block>, now: set<Block>, prefix: seq<Block>, hits: nat, i: nat)
    requires hits <= |prefix| && i < |prefix| && Elements(prefix[..hits]) <= was
    requires Elements(prefix[..hits]) * was <= now
    ensures prefix[i] !in now ==> i >= hits
  {
    assert i < hits ==> prefix[..hits][i] == prefix[i] && prefix[i] in Elements(prefix[..hits]);
  }

  lemma PrefixElements(prefix: seq<Block>, hits: nat, n: nat)
    requires hits <= |prefix| && n < |prefix|
    ensures hits <= n ==> Elements(prefix[..hits]) <= Elements(prefix[..n])
    ensures Elements(prefix[..n + 1]) == Elements(prefix[..n]) + {prefix[n]} <= Elements(prefix)
    ensures |Elements(prefix[..n]) + {prefix[n]}| <= |Elements(prefix)|
  {
    if hits <= n { assert prefix[..hits] == prefix[..n][..hits]; }
    assert prefix[..n + 1] == prefix[..n] + [prefix[n]];
    SubsetSize(Elements(prefix[..n]) + {prefix[n]}, Elements(prefix));
  }

  lemma SubsetSize(a: set<Block>, b: set<Block>)
    requires a <= b
    ensures |a| <= |b|
  {
    assert b == a + (b - a);
  }

  lemma {:induction false} LruServes(c: nat, s: CacheState, order: seq<Block>, r: Request)
    requires Good(s, r.at) && s.policy == Lru(order) && |s.resident| <= c && |Elements(r.prefix)| <= c
    ensures var hits := r.prefix[..HitCount(s.resident, r.prefix)];
            && Elements(hits) <= Elements(r.prefix)
            && Served(c, s, r).policy == Lru(LruSteps(LruSteps(order, hits, c), r.prefix, c))
  {
    hide Good; hide PlaceAll; hide TouchAll;
    var n := HitCount(s.resident, r.prefix);
    var hits := r.prefix[..n];
    TrackedInLru(s, order, r.at);
    forall b | b in hits ensures b in order {
      assert b in s.resident && b in Elements(order);
    }
    LruTouches(s, order, hits, c);
    LookupKeepsGood(s, r.prefix, r.at);
    assert Elements(hits) <= s.resident;
    var f, k := LruPlaces(c, LookedUp(s, r.prefix), LruSteps(order, hits, c), r.prefix, n, |r.prefix|, r.at);
    assert r.prefix[..|r.prefix|] == r.prefix;
  }

  /** On one LRU node where no request has more distinct blocks than the capacity, the
      resident list is the top of the recency stack of all references. */
  lemma {:induction false} LruIsTopOfStack(c: nat, requests: seq<Request>)
    requires c > 0 && Chronological(requests)
    requires forall i :: 0 <= i < |requests| ==> |Elements(requests[i].prefix)| <= c
    ensures var s := Replay(c, Fresh(Lru([])), requests);
            && s.policy == Lru(Top(Referenced([], References(requests)), c))
            && s.resident == Elements(Top(Referenced([], References(requests)), c))
            && NoRepeats(Referenced([], References(requests)))
    decreases |requests|
  {
    hide Good; hide Served; hide LruStep; hide Sound; hide Top;
    FreshLru();
    if requests != [] {
      var front, r := requests[..|requests| - 1], requests[|requests| - 1];
      LruIsTopOfStack(c, front);
      var stack, s := Referenced([], References(front)), Replay(c, Fresh(Lru([])), front);
      ReplayKeeps(c, Lru([]), front, r.at);
      LruServes(c, s, Top(stack, c), r);
      var hits := r.prefix[..HitCount(s.resident, r.prefix)];
      StackSteps(stack, hits, c);
      StackSteps(Referenced(stack, hits), r.prefix, c);
      LookupAddsNothing(stack, hits, r.prefix);
      ReferencedConcat([], References(front), r.prefix);
    } else {
      EmptyTop(c);
    }
    ReplayKeeps(c, Lru([]), requests, if requests == [] then 0.0 else requests[|requests| - 1].at);
    TrackedInLru(Replay(c, Fresh(Lru([])), requests), Top(Referenced([], References(requests)), c),
                 if requests == [] then 0.0 else requests[|requests| - 1].at);
  }

  lemma FreshLru()
    ensures Sound(Lru([])) && Tracked(Lru([])) == {}
  {
  }

  lemma EmptyTop(c: nat)
    ensures Top([], c) == []
  {
  }

  /** A larger LRU cache holds everything a smaller one does. */
  lemma {:induction false} LruInclusion(small: nat, large: nat, requests: seq<Request>)
    requires 0 < small <= large && Chronological(requests)
    requires forall i :: 0 <= i < |requests| ==> |Elements(requests[i].prefix)| <= small
    ensures Replay(small, Fresh(Lru([])), requests).resident <= Replay(large, Fresh(Lru([])), requests).resident
  {
    hide Replay; hide Referenced; hide References; hide Top;
    LruIsTopOfStack(small, requests);
    LruIsTopOfStack(large, requests);
    TopNested(Referenced([], References(requests)), small, large);
  }

  lemma TopNested(stack: seq<Block>, small: nat, large: nat)
    requires small <= large
    ensures Elements(Top(stack, small)) <= Elements(Top(stack, large))
  {
    var more, less := Top(stack, large), Top(stack, small);
    assert more == more[..|more| - |less|] + less;
    NoRepeatsConcat(more[..|more| - |less|], less);
  }

  lemma {:induction false} MoreResidentMoreHits(small: set<Block>, large: set<Block>, prefix: seq<Block>)
    requires small <= large
    ensures HitCount(small, prefix) <= HitCount(large, prefix)
  {
    if prefix != [] {
      MoreResidentMoreHits(small, large, prefix[1..]);
    }
  }

  /** Prefix hits of a whole replay. */
  function TotalHits(capacity: nat, s: CacheState, requests: seq<Request>): nat
    decreases |requests|
  {
    if requests == [] then 0
    else
      var front, r := requests[..|requests| - 1], requests[|requests| - 1];
      TotalHits(capacity, s, front) + HitCount(Replay(capacity, s, front).resident, r.prefix)
  }

  /** More capacity never lowers the prefix hits of an LRU replay. */
  lemma {:induction false} LruHitsGrowWithCapacity(small: nat, large: nat, requests: seq<Request>)
    requires 0 < small <= large && Chronological(requests)
    requires forall i :: 0 <= i < |requests| ==> |Elements(requests[i].prefix)| <= small
    ensures TotalHits(small, Fresh(Lru([])), requests) <= TotalHits(large, Fresh(Lru([])), requests)
    decreases |requests|
  {
    hide Replay;
    if requests != [] {
      var front, r := requests[..|requests| - 1], requests[|requests| - 1];
      LruHitsGrowWithCapacity(small, large, front);
      LruInclusion(small, large, front);
      MoreResidentMoreHits(Replay(small, Fresh(Lru([])), front).resident, Replay(large, Fresh(Lru([])), front).resident, r.prefix);
    }
  }

  // --- the bound on requests is needed --------------------------------------

  /** The stack property of a whole replay on one fresh LRU node. */
  predicate StackHolds(c: nat, requests: seq<Request>) {
    Replay(c, Fresh(Lru([])), requests).policy == Lru(Top(Referenced([], References(requests)), c))
  }

  /** The first block of a request finds a place: nothing is protected yet. */
  lemma FirstBlockPlaced(c: nat, s: CacheState, order: seq<Block>, b: Block, at: real, pinned: set<Block>)
    requires Good(s, at) && s.policy == Lru(order) && |s.resident| <= c && c > 0
    requires b !in s.resident && pinned == {}
    ensures b in PlaceBlock(c, Placing(s, {}, 0, 0, 0, 0), b, at, pinned).mine
  {
    hide Good; hide EvictAll; hide Inserted; hide FirstEligible; hide NoRepeats;
    TrackedInLru(s, order, at);
    if |s.resident| == c {
      assert order[0] in Elements(order) && pinned + {} == pinned;
      OldestGoes(order, s.resident, pinned);
    }
  }

  /** Once placed, it stays: a request's own blocks are never evicted for its later ones. */
  lemma {:induction false} FirstBlockStaysMine(c: nat, s: CacheState, order: seq<Block>, prefix: seq<Block>, n: nat, at: real)
    requires Good(s, at) && s.policy == Lru(order) && |s.resident| <= c && c > 0
    requires 0 < n <= |prefix| && prefix[0] !in s.resident
    ensures prefix[0] in PlaceAll(c, s, prefix[..n], at, {}).mine
    decreases n
  {
    hide Good; hide PlaceBlock;
    var done := prefix[..n - 1];
    assert prefix[..n][..n - 1] == done && prefix[..n] == done + [prefix[n - 1]];
    if n == 1 {
      FirstBlockPlaced(c, s, order, prefix[0], at, {});
    } else {
      FirstBlockStaysMine(c, s, order, prefix, n - 1, at);
      MineIsPlaced(c, PlaceAll(c, s, done, at, {}), prefix[n - 1], at, {});
    }
  }

  /** After an LRU node has served a request, it holds the request's first block. */
  lemma FirstBlockStays(c: nat, s: CacheState, order: seq<Block>, r: Request)
    requires Good(s, r.at) && s.policy == Lru(order) && |s.resident| <= c && c > 0 && r.prefix != []
    ensures r.prefix[0] in Served(c, s, r).resident
  {
    hide Good; hide PlaceAll; hide TouchAll;
    var n := HitCount(s.resident, r.prefix);
    var hits := r.prefix[..n];
    TrackedInLru(s, order, r.at);
    forall b | b in hits ensures b in order {
      assert b in s.resident && b in Elements(order);
    }
    LruTouches(s, order, hits, c);
    LookupKeepsGood(s, r.prefix, r.at);
    PlaceKeeps(c, LookedUp(s, r.prefix), r.prefix, r.at, Elements(hits));
    if r.prefix[0] in s.resident {
      assert hits[0] == r.prefix[0];
    } else {
      assert hits == [] && Elements(hits) == {};
      FirstBlockStaysMine(c, LookedUp(s, r.prefix), LruSteps(order, hits, c), r.prefix, |r.prefix|, r.at);
      assert r.prefix[..|r.prefix|] == r.prefix;
    }
  }

  /** At least `c` other blocks follow the last mention of the first one, at `j`. */
  predicate Buries(prefix: seq<Block>, j: nat, c: nat) {
    j < |prefix| && prefix[j] == prefix[0] && prefix[0] !in prefix[j + 1..] && |Elements(prefix[j + 1..])| >= c
  }

  lemma {:induction false} ElementsAtMost(s: seq<Block>)
    ensures |Elements(s)| <= |s|
  {
    if s != [] {
      ElementsAtMost(s[1..]);
      assert s == [s[0]] + s[1..] && Elements(s) == {s[0]} + Elements(s[1..]);
    }
  }

  /** Then the first block is not in the top of the stack. */
  lemma {:induction false} FirstBlockSinks(stack: seq<Block>, prefix: seq<Block>, j: nat, c: nat)
    requires Buries(prefix, j, c)
    ensures prefix[0] !in Elements(Top(Referenced(stack, prefix), c))
  {
    hide NoRepeats; hide Referenced; hide Dropping;
    var head, rest := prefix[..j + 1], prefix[j + 1..];
    assert prefix == head + rest;
    ReferencedConcat(stack, head, rest);
    ReferencedForm(Referenced(stack, head), rest);
    var below, top := Dropping(Referenced(stack, head), Elements(rest)), Referenced([], rest);
    ElementsAtMost(top);
    assert Top(below + top, c) == top[|top| - c..];
    forall b | b in top[|top| - c..] ensures b in rest { assert b in top; assert b in Elements(top); }
  }

  /** One such request breaks the stack property, from any replay in which it holds. */
  lemma BuriedFirstBlockBreaksStack(c: nat, front: seq<Request>, r: Request, j: nat)
    requires c > 0 && Chronological(front + [r]) && StackHolds(c, front) && Buries(r.prefix, j, c)
    ensures !StackHolds(c, front + [r])
  {
    hide Good; hide Served; hide Top; hide Referenced; hide NoRepeats; hide Sound; hide Tracked;
    FreshLru();
    assert (front + [r])[..|front|] == front && (front + [r])[|front|] == r;
    assert Chronological(front) && forall i :: 0 <= i < |front| ==> (front + [r])[i] == front[i];
    assert front != [] ==> (front + [r])[|front| - 1].at <= (front + [r])[|front|].at;
    ReplayKeeps(c, Lru([]), front, r.at);
    ReplayKeeps(c, Lru([]), front + [r], r.at);
    var stack, s := Referenced([], References(front)), Replay(c, Fresh(Lru([])), front);
    FirstBlockStays(c, s, Top(stack, c), r);
    ReferencedConcat([], References(front), r.prefix);
    FirstBlockSinks(stack, r.prefix, j, c);
    if StackHolds(c, front + [r]) {
      TrackedInLru(Served(c, s, r), Top(Referenced(stack, r.prefix), c), r.at);
      assert false;
    }
  }

  /** A request names its first block once; others may be repeated. */
  predicate FirstOnce(r: Request) { r.prefix != [] ==> r.prefix[0] !in r.prefix[1..] }

  /** One request of more distinct blocks than the capacity breaks the stack property. */
  lemma LongRequestBreaksStack(c: nat, front: seq<Request>, r: Request)
    requires c > 0 && Chronological(front + [r]) && StackHolds(c, front) && FirstOnce(r) && |Elements(r.prefix)| > c
    ensures !StackHolds(c, front + [r])
  {
    hide StackHolds;
    var rest := r.prefix[1..];
    assert r.prefix == [r.prefix[0]] + rest;
    assert Elements(r.prefix) == {r.prefix[0]} + Elements(rest) && r.prefix[0] !in Elements(rest);
    assert |Elements(r.prefix)| == 1 + |Elements(rest)|;
    BuriedFirstBlockBreaksStack(c, front, r, 0);
  }

  /** Requests that name their first block once: the LRU list is the top of the recency stack after
      every request of the replay if and only if no request has more distinct blocks than the
      capacity. */
  lemma StackHoldsThroughoutIffRequestsFit(c: nat, requests: seq<Request>)
    requires c > 0 && Chronological(requests)
    requires forall i :: 0 <= i < |requests| ==> FirstOnce(requests[i])
    ensures (forall n :: 0 <= n <= |requests| ==> StackHolds(c, requests[..n]))
            <==> (forall i :: 0 <= i < |requests| ==> |Elements(requests[i].prefix)| <= c)
  {
    hide StackHolds; hide FirstOnce; hide Elements;
    if forall i :: 0 <= i < |requests| ==> |Elements(requests[i].prefix)| <= c {
      forall n | 0 <= n <= |requests| ensures StackHolds(c, requests[..n]) {
        FittingRequestsKeepStack(c, requests[..n]);
      }
    }
    if forall n :: 0 <= n <= |requests| ==> StackHolds(c, requests[..n]) {
      forall i | 0 <= i < |requests| ensures |Elements(requests[i].prefix)| <= c {
        assert requests[..i + 1] == requests[..i] + [requests[i]];
        assert StackHolds(c, requests[..i]) && StackHolds(c, requests[..i + 1]);
        if |Elements(requests[i].prefix)| > c {
          LongRequestBreaksStack(c, requests[..i], requests[i]);
        }
      }
    }
  }

  lemma FittingRequestsKeepStack(c: nat, requests: seq<Request>)
    requires c > 0 && Chronological(requests)
    requires forall i :: 0 <= i < |requests| ==> |Elements(requests[i].prefix)| <= c
    ensures StackHolds(c, requests)
  {
    hide Replay; hide Top; hide Referenced; hide References; hide Elements;
    LruIsTopOfStack(c, requests);
  }

  /** A request of too many distinct blocks that comes back to its first one may keep the stack. */
  lemma RepeatMayKeepStack(a: Block, b: Block)
    requires a != b
    ensures var r := Request([a, b, a], 0.0); |Elements(r.prefix)| > 1 && StackHolds(1, [r])
  {
    hide Placed; hide LookedUp; hide Referenced; hide Fresh; hide Served;
    var r, s := Request([a, b, a], 0.0), Fresh(Lru([]));
    RepeatServed(a, b);
    RepeatReferenced(a, b);
    assert [r][..0] == [] && Replay(1, s, []) == s && Replay(1, s, [r]) == Served(1, s, r);
    assert Elements([a, b, a]) == {a, b};
    assert References([r]) == [] + r.prefix == r.prefix;
  }

  lemma RepeatReferenced(a: Block, b: Block)
    requires a != b
    ensures Referenced([], [a, b, a]) == [b, a]
  {
    assert [a, b, a][..2] == [a, b] && [a, b][..1] == [a] && [a][..0] == [];
    assert [a, b][1..] == [b] && [b][1..] == [] && Without([a, b], a) == [b];
    assert Referenced([], [a]) == [a] && ToEnd([a], b) == [a, b] && ToEnd([a, b], a) == [b, a];
  }

  lemma RepeatServed(a: Block, b: Block)
    requires a != b
    ensures Served(1, Fresh(Lru([])), Request([a, b, a], 0.0)).policy == Lru([a])
  {
    var r, s := Request([a, b, a], 0.0), Fresh(Lru([]));
    assert r.prefix[..2] == [a, b] && [a, b][..1] == [a] && [a][..0] == [];
    HitCountIs({}, r.prefix, 0);
    assert r.prefix[..0] == [] && LookedUp(s, r.prefix) == s;
    var p0 := PlaceAll(1, s, [], 0.0, {});
    var p1 := PlaceAll(1, s, [a], 0.0, {});
    assert p1 == PlaceBlock(1, p0, a, 0.0, {}) && p0 == Placing(s, {}, 0, 0, 0, 0);
    assert p1.mine == {} + {a};
    assert p1.cache.policy == Lru([a]) && p1.cache.resident == {a} && p1.mine == {a};
    var p2 := PlaceAll(1, s, [a, b], 0.0, {});
    assert [a][1..] == [] && !Eligible({a}, {a}, a);
    assert FirstEligible([a], 1, {a}, {a}) == FirstEligible([], 1, {a}, {a}) == [];
    assert p2.cache.policy == Lru([a]) && p2.cache.resident == {a};
    assert PlaceAll(1, s, r.prefix, 0.0, {}).cache.policy == Lru([a]);
    assert Elements(r.prefix[..0]) == {};
  }

  // --- the analyzer's ceiling -----------------------------------------------

  /** Blocks any earlier request has referenced. */
  function Seen(requests: seq<Request>): set<Block>
    decreases |requests|
  {
    if requests == [] then {} else Seen(requests[..|requests| - 1]) + Elements(requests[|requests| - 1].prefix)
  }

  /** Prefix hits of an infinite cache. */
  function Ceiling(requests: seq<Request>): nat
    decreases |requests|
  {
    if requests == [] then 0
    else
      var front, r := requests[..|requests| - 1], requests[|requests| - 1];
      Ceiling(front) + HitCount(Seen(front), r.prefix)
  }

  /** The loop of `analyze_trace` that computes the ceiling. */
  method AnalyzeCeiling(requests: seq<Request>) returns (hitBlocks: nat)
    ensures hitBlocks == Ceiling(requests)
  {
    hitBlocks := 0;
    var seen := {};
    for i := 0 to |requests|
      invariant seen == Seen(requests[..i]) && hitBlocks == Ceiling(requests[..i])
    {
      assert requests[..i + 1][..i] == requests[..i];
      var prefix, n := requests[i].prefix, 0;
      while n < |prefix| && prefix[n] in seen
        invariant n <= |prefix| && forall j :: 0 <= j < n ==> prefix[j] in seen
      {
        n := n + 1;
      }
      HitCountIs(seen, prefix, n);
      hitBlocks := hitBlocks + n;
      seen := seen + Elements(prefix);
    }
    assert requests[..|requests|] == requests;
  }

  /** Any number of nodes, and for every request the node some selector chose. */
  datatype Cluster = Cluster(capacities: map<string, nat>, nodes: map<string, CacheState>)

  ghost predicate Selects(c: Cluster, choices: seq<string>) {
    c.capacities.Keys == c.nodes.Keys && forall n :: n in choices ==> n in c.nodes
  }

  function ClusterReplay(c: Cluster, requests: seq<Request>, choices: seq<string>): (nodes: map<string, CacheState>)
    requires |requests| == |choices| && Selects(c, choices)
    ensures nodes.Keys == c.nodes.Keys
    decreases |requests|
  {
    if requests == [] then c.nodes
    else
      var i := |requests| - 1;
      var nodes := ClusterReplay(c, requests[..i], choices[..i]);
      nodes[choices[i] := Served(c.capacities[choices[i]], nodes[choices[i]], requests[i])]
  }

  function ClusterHits(c: Cluster, requests: seq<Request>, choices: seq<string>): nat
    requires |requests| == |choices| && Selects(c, choices)
    decreases |requests|
  {
    if requests == [] then 0
    else
      var i := |requests| - 1;
      ClusterHits(c, requests[..i], choices[..i])
      + HitCount(ClusterReplay(c, requests[..i], choices[..i])[choices[i]].resident, requests[i].prefix)
  }

  lemma {:induction false} EvictKeepsSubset(s: CacheState, victims: seq<Block>, at: real)
    ensures EvictAll(s, victims, at).resident <= s.resident
    decreases |victims|
  {
    if victims != [] {
      EvictKeepsSubset(s, victims[..|victims| - 1], at);
    }
  }

  lemma PlaceBlockFromRequest(c: nat, p: Placing, b: Block, at: real, pinned: set<Block>)
    ensures PlaceBlock(c, p, b, at, pinned).cache.resident <= p.cache.resident + {b}
  {
    hide EvictAll; hide VictimsOf; hide OnAdmit; hide OnLookup; hide OnInsert;
    var needed := if |p.cache.resident| + 1 > c then |p.cache.resident| + 1 - c else 0;
    var admitted := p.cache.(policy := OnAdmit(p.cache.policy, b));
    EvictKeepsSubset(admitted, VictimsOf(admitted.policy, needed, p.cache.resident, pinned + p.mine), at);
  }

  lemma {:induction false} PlacedFromRequest(c: nat, s: CacheState, prefix: seq<Block>, at: real, pinned: set<Block>)
    ensures Placed(c, s, prefix, at, pinned).resident <= s.resident + Elements(prefix)
    decreases |prefix|
  {
    hide PlaceBlock;
    if prefix != [] {
      var front, b := prefix[..|prefix| - 1], prefix[|prefix| - 1];
      PlacedFromRequest(c, s, front, at, pinned);
      PlaceBlockFromRequest(c, PlaceAll(c, s, front, at, pinned), b, at, pinned);
      assert prefix == front + [b] && Elements(prefix) == Elements(front) + {b};
    }
  }

  lemma {:induction false} TouchResident(s: CacheState, blocks: seq<Block>)
    ensures TouchAll(s, blocks).resident == s.resident
    decreases |blocks|
  {
    if blocks != [] {
      TouchResident(s, blocks[..|blocks| - 1]);
    }
  }

  lemma ServedFromRequest(c: nat, s: CacheState, r: Request)
    ensures Served(c, s, r).resident <= s.resident + Elements(r.prefix)
  {
    hide PlaceAll;
    var n := HitCount(s.resident, r.prefix);
    TouchResident(s, r.prefix[..n]);
    PlacedFromRequest(c, LookedUp(s, r.prefix), r.prefix, r.at, Elements(r.prefix[..n]));
  }

  /** Whatever the selector, the policies and the capacities, a node only ever holds blocks
      some request has referenced, so no replay hits more than the ceiling. */
  lemma {:induction false} CeilingBoundsHits(c: Cluster, requests: seq<Request>, choices: seq<string>)
    requires |requests| == |choices| && Selects(c, choices)
    requires forall n :: n in c.nodes ==> c.nodes[n].resident == {}
    ensures ClusterHits(c, requests, choices) <= Ceiling(requests)
    ensures forall n :: n in c.nodes ==> ClusterReplay(c, requests, choices)[n].resident <= Seen(requests)
    decreases |requests|
  {
    hide Served;
    if requests != [] {
      var i := |requests| - 1;
      var front := requests[..i];
      CeilingBoundsHits(c, front, choices[..i]);
      var s := ClusterReplay(c, front, choices[..i])[choices[i]];
      ServedFromRequest(c.capacities[choices[i]], s, requests[i]);
      assert choices[i] in c.nodes;
      MoreResidentMoreHits(s.resident, Seen(front), requests[i].prefix);
    }
  }

  // --- reaching the ceiling -------------------------------------------------

  /** With room for everything and a policy that always admits, every block of the request
      ends up resident and nothing leaves. */
  lemma {:induction false} PlacedWithRoom(c: nat, s: CacheState, prefix: seq<Block>, at: real, pinned: set<Block>)
    requires Good(s, at) && !s.policy.SecondHit? && |s.resident + Elements(prefix)| <= c
    ensures var t := Placed(c, s, prefix, at, pinned);
            t.resident == s.resident + Elements(prefix) && !t.policy.SecondHit? && Good(t, at)
    decreases |prefix|
  {
    hide Good; hide PlaceBlock; hide Elements;
    SubsetSize(s.resident, s.resident + Elements(prefix));
    PlaceKeeps(c, s, prefix, at, pinned);
    if prefix == [] {
      NothingListed<Block>();
    } else {
      var front, b := prefix[..|prefix| - 1], prefix[|prefix| - 1];
      LastElement(prefix);
      SubsetSize(s.resident + Elements(front), s.resident + Elements(prefix));
      PlacedWithRoom(c, s, front, at, pinned);
      var p := PlaceAll(c, s, front, at, pinned);
      assert s.resident + Elements(prefix) == p.cache.resident + {b};
      PlacedBlockWithRoom(c, p, b, at, pinned);
    }
  }

  lemma LastElement(prefix: seq<Block>)
    requires prefix != []
    ensures Elements(prefix) == Elements(prefix[..|prefix| - 1]) + {prefix[|prefix| - 1]}
  {
    assert prefix == prefix[..|prefix| - 1] + [prefix[|prefix| - 1]];
  }

  lemma PlacedBlockWithRoom(c: nat, p: Placing, b: Block, at: real, pinned: set<Block>)
    requires !p.cache.policy.SecondHit? && |p.cache.resident + {b}| <= c
    ensures var t := PlaceBlock(c, p, b, at, pinned).cache;
            t.resident == p.cache.resident + {b} && !t.policy.SecondHit?
  {
    hide FirstEligible; hide EvictAll;
    NothingEligible(Candidates(p.cache.policy), 0, p.cache.resident, pinned + p.mine);
    NoVictims(p.cache, at);
    if b in p.cache.resident { assert p.cache.resident + {b} == p.cache.resident; }
  }

  lemma {:induction false} TouchKeepsKind(s: CacheState, blocks: seq<Block>)
    requires !s.policy.SecondHit?
    ensures !TouchAll(s, blocks).policy.SecondHit?
    decreases |blocks|
  {
    if blocks != [] {
      TouchKeepsKind(s, blocks[..|blocks| - 1]);
    }
  }

  lemma ServedWithRoom(c: nat, s: CacheState, r: Request)
    requires Good(s, r.at) && !s.policy.SecondHit? && |s.resident + Elements(r.prefix)| <= c
    ensures Served(c, s, r).resident == s.resident + Elements(r.prefix) && !Served(c, s, r).policy.SecondHit?
  {
    hide PlaceAll; hide Good;
    var n := HitCount(s.resident, r.prefix);
    LookupKeepsGood(s, r.prefix, r.at);
    TouchKeepsKind(s, r.prefix[..n]);
    PlacedWithRoom(c, LookedUp(s, r.prefix), r.prefix, r.at, Elements(r.prefix[..n]));
  }

  /** One node whose capacity covers all distinct blocks reaches the ceiling under any policy
      that always admits. */
  lemma {:induction false} CeilingIsReached(c: nat, policy: Policy, requests: seq<Request>)
    requires Sound(policy) && Tracked(policy) == {} && !policy.SecondHit?
    requires Chronological(requests) && |Seen(requests)| <= c
    ensures TotalHits(c, Fresh(policy), requests) == Ceiling(requests)
    ensures var s := Replay(c, Fresh(policy), requests); s.resident == Seen(requests) && !s.policy.SecondHit?
    decreases |requests|
  {
    hide Served; hide Good;
    if requests != [] {
      var front, r := requests[..|requests| - 1], requests[|requests| - 1];
      SubsetSize(Seen(front), Seen(requests));
      CeilingIsReached(c, policy, front);
      ReplayKeeps(c, policy, front, r.at);
      ServedWithRoom(c, Replay(c, Fresh(policy), front), r);
    }
  }

  /** A policy that rejects first references does not reach it: of two equal requests for a block
      it has no ghost of, the second misses too, whatever the capacities. */
  lemma {:induction false} SecondHitMissesCeiling(c: nat, policy: Policy, b: Block)
    requires policy.SecondHit? && Tracked(policy) == {} && b !in policy.ghosts
    ensures var r := Request([b], 0.0);
            && Chronological([r, r]) && Seen([r, r]) == {b}
            && TotalHits(c, Fresh(policy), [r, r]) == 0 && Ceiling([r, r]) == 1
  {
    SecondHitHitsNothing(c, policy, b);
    CeilingOfTwo(b);
  }

  lemma {:induction false} SecondHitHitsNothing(c: nat, policy: Policy, b: Block)
    requires policy.SecondHit? && b !in policy.ghosts
    ensures var r := Request([b], 0.0); TotalHits(c, Fresh(policy), [r, r]) == 0
  {
    hide Served;
    var r, s := Request([b], 0.0), Fresh(policy);
    assert [r, r][..1] == [r] && [r][..0] == [];
    FirstReferenceRejected(c, policy, b);
    assert Replay(c, s, []) == s && Replay(c, s, [r]) == Served(c, s, r);
    HitCountIs({}, [b], 0);
    assert TotalHits(c, s, [r]) == TotalHits(c, s, []) + HitCount({}, [b]);
  }

  lemma CeilingOfTwo(b: Block)
    ensures var r := Request([b], 0.0); Seen([r, r]) == {b} && Ceiling([r, r]) == 1
  {
    var r := Request([b], 0.0);
    assert [r, r][..1] == [r] && [r][..0] == [];
    HitCountIs({}, [b], 0);
    HitCountIs({b}, [b], 1);
    assert Seen([]) == {} && Seen([r]) == Seen([]) + Elements([b]) && Seen([r, r]) == Seen([r]) + Elements([b]);
    assert Elements([b]) == {b};
    assert Ceiling([r]) == Ceiling([]) + HitCount({}, [b]);
  }

  lemma FirstReferenceRejected(c: nat, policy: Policy, b: Block)
    requires policy.SecondHit? && b !in policy.ghosts
    ensures Served(c, Fresh(policy), Request([b], 0.0)).resident == {}
  {
    var s := Fresh(policy);
    HitCountIs({}, [b], 0);
    assert [b][..0] == [] && [b][..|[b]| - 1] == [];
    assert LookedUp(s, [b]) == s;
    assert PlaceAll(c, s, [b], 0.0, Elements([])) == PlaceBlock(c, Placing(s, {}, 0, 0, 0, 0), b, 0.0, Elements([]));
  }

  /** A block larger than all of these. */
  function Above(blocks: seq<Block>): (b: Block)
    ensures forall x :: x in blocks ==> x < b
  {
    if blocks == [] then 0
    else
      var rest := Above(blocks[1..]);
      assert forall x :: x in blocks ==> x == blocks[0] || x in blocks[1..];
      if blocks[0] < rest then rest else blocks[0] + 1
  }

  /** On a node that holds nothing yet, the policies that reach the ceiling on every replay that
      fits the capacity are exactly those other than second-hit admission. */
  lemma CeilingReachedIffAlwaysAdmits(c: nat, policy: Policy)
    requires c >= 1 && Sound(policy) && Tracked(policy) == {}
    ensures (forall requests: seq<Request> :: Chronological(requests) && |Seen(requests)| <= c ==>
               TotalHits(c, Fresh(policy), requests) == Ceiling(requests))
            <==> !policy.SecondHit?
  {
    hide TotalHits; hide Ceiling; hide Sound; hide Tracked; hide Seen;
    if policy.SecondHit? {
      var b := Above(policy.ghosts);
      SecondHitMissesCeiling(c, policy, b);
      assert |{b}| == 1;
    } else {
      forall requests: seq<Request> | Chronological(requests) && |Seen(requests)| <= c
        ensures TotalHits(c, Fresh(policy), requests) == Ceiling(requests)
      {
        CeilingIsReached(c, policy, requests);
      }
    }
  }
}
