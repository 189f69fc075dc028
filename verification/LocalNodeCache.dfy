/** `LocalNodeCache` (src/prefill_cache_sim/cache.py:12-171) as the object it is. */
module LocalNodeCaches {
  import opened EvictionPolicies
  import opened ResidencyHistory
  import opened NodeCache

  class LocalNodeCache {
    const capacityBlocks: nat
    const policy: EvictionPolicy
    var resident: set<Block>
    var history: map<Block, seq<Interval>>
    var accesses: map<Block, nat>
    var evictionRegret: nat
    var oneHitPollution: nat
    ghost var log: seq<Change>

    ghost function St(): CacheState
      reads this, policy
    {
      CacheState(policy.state, resident, history, accesses, evictionRegret, oneHitPollution, log)
    }

    constructor (capacityBlocks: nat, policy: EvictionPolicy)
      requires capacityBlocks > 0
      ensures this.capacityBlocks == capacityBlocks && this.policy == policy && St() == Fresh(policy.state)
    {
      this.capacityBlocks, this.policy := capacityBlocks, policy;
      resident, history, accesses := {}, map[], map[];
      evictionRegret, oneHitPollution := 0, 0;
      log := [];
    }

    method Touch(b: Block)
      modifies `accesses, policy
      ensures St() == Touched(old(St()), b)
    {
      policy.Looked(b);
      accesses := accesses[b := AccessesOf(accesses, b) + 1];
    }

    method Lookup(prefix: seq<Block>, sizes: seq<nat>) returns (r: NodeCache.Lookup)
      requires |prefix| == |sizes|
      modifies `accesses, `evictionRegret, policy
      ensures St() == LookedUp(old(St()), prefix) && r == LookupOf(old(St()), prefix, sizes)
    {
      hide Touched; hide CountResident; hide HitCount;
      ghost var s := St();
      var n, tokens := 0, 0;
      assert prefix[..0] == [] && sizes[..0] == [];
      while n < |prefix| && prefix[n] in resident
        invariant n <= |prefix| && forall i :: 0 <= i < n ==> prefix[i] in resident
        invariant St() == TouchAll(s, prefix[..n]) && tokens == SumOf(sizes[..n])
      {
        assert prefix[..n + 1][..n] == prefix[..n] && sizes[..n + 1][..n] == sizes[..n];
        Touch(prefix[n]);
        tokens := tokens + sizes[n];
        n := n + 1;
      }
      HitCountIs(resident, prefix, n);
      var stranded := 0;
      if n < |prefix| {
        if WasDropped(history, prefix[n]) { evictionRegret := evictionRegret + 1; }
        stranded := CountStranded(prefix[n + 1..]);
      }
      r := NodeCache.Lookup(n, tokens, prefix[n..], stranded);
    }

    method CountStranded(blocks: seq<Block>) returns (n: nat)
      ensures n == CountResident(resident, blocks)
    {
      n := 0;
      for i := 0 to |blocks|
        invariant n == CountResident(resident, blocks[..i])
      {
        assert blocks[..i + 1][..i] == blocks[..i];
        if blocks[i] in resident { n := n + 1; }
      }
      assert blocks[..|blocks|] == blocks;
    }

    /** Continuous-prefix hits without refreshing policy state. */
    method Preview(prefix: seq<Block>, sizes: seq<nat>) returns (blocks: nat, tokens: nat)
      requires |prefix| == |sizes|
      ensures blocks == HitCount(resident, prefix) && tokens == SumOf(sizes[..blocks])
    {
      blocks, tokens := 0, 0;
      while blocks < |prefix| && prefix[blocks] in resident
        invariant blocks <= |prefix| && forall i :: 0 <= i < blocks ==> prefix[i] in resident
        invariant tokens == SumOf(sizes[..blocks])
      {
        assert sizes[..blocks + 1][..blocks] == sizes[..blocks];
        tokens := tokens + sizes[blocks];
        blocks := blocks + 1;
      }
      HitCountIs(resident, prefix, blocks);
    }

    method ResidentThen(b: Block, observedAt: real) returns (found: bool)
      ensures found == Covers(IntervalsOf(history, b), observedAt)
    {
      var intervals := IntervalsOf(history, b);
      var i := |intervals|;
      found := false;
      assert intervals[..i] == intervals;
      while i > 0 && !found
        invariant 0 <= i <= |intervals|
        invariant Covers(intervals, observedAt) == (found || Covers(intervals[..i], observedAt))
        decreases i
      {
        i := i - 1;
        assert intervals[..i + 1][..i] == intervals[..i];
        found := Holds(intervals[i], observedAt);
      }
    }

    /** Hits from historical residency at the observation time. */
    method PreviewAt(prefix: seq<Block>, sizes: seq<nat>, observedAt: real) returns (blocks: nat, tokens: nat)
      requires |prefix| == |sizes|
      ensures blocks == HitCountAt(history, prefix, observedAt) <= |prefix| && tokens == SumOf(sizes[..blocks])
    {
      blocks, tokens := 0, 0;
      var open := true;
      assert prefix[0..] == prefix;
      while blocks < |prefix| && open
        invariant blocks <= |prefix|
        invariant HitCountAt(history, prefix, observedAt)
                  == blocks + (if open then HitCountAt(history, prefix[blocks..], observedAt) else 0)
        invariant tokens == SumOf(sizes[..blocks])
        decreases open, |prefix| - blocks
      {
        assert prefix[blocks..][1..] == prefix[blocks + 1..];
        open := ResidentThen(prefix[blocks], observedAt);
        if open {
          assert sizes[..blocks + 1][..blocks] == sizes[..blocks];
          tokens := tokens + sizes[blocks];
          blocks := blocks + 1;
        }
      }
    }

    method CloseInterval(b: Block, now: real)
      modifies `history
      ensures history == (if b in old(history) then old(history)[b := Closed(old(history)[b], now)] else old(history))
    {
      if b in history { history := history[b := Closed(history[b], now)]; }
    }

    method Evict(victim: Block, now: real)
      modifies this, policy
      ensures St() == Evicted(old(St()), victim, now)
    {
      if AccessesOf(accesses, victim) <= 1 { oneHitPollution := oneHitPollution + 1; }
      resident := resident - {victim};
      CloseInterval(victim, now);
      policy.Removed(victim);
      accesses := accesses - {victim};
      log := log + [Dropped(victim, now)];
    }

    method EvictEach(victims: seq<Block>, now: real)
      modifies this, policy
      ensures St() == EvictAll(old(St()), victims, now)
    {
      hide Evicted;
      ghost var s := St();
      for i := 0 to |victims|
        invariant St() == EvictAll(s, victims[..i], now)
      {
        assert victims[..i + 1][..i] == victims[..i];
        Evict(victims[i], now);
      }
      assert victims[..|victims|] == victims;
    }

    method Insert(b: Block, now: real)
      modifies this, policy
      ensures St() == Inserted(old(St()), b, now)
    {
      resident := resident + {b};
      history := history[b := Opened(IntervalsOf(history, b), now)];
      policy.Inserted(b);
      accesses := accesses[b := 0];
      log := log + [Added(b, now)];
    }

    /** What a placement reports. */
    method Place(prefix: seq<Block>, now: real, pinned: set<Block>)
      returns (inserted: nat, evicted: nat, admissionRejected: nat, capacityRejected: nat)
      modifies this, policy
      ensures var p := PlaceAll(capacityBlocks, old(St()), prefix, now, pinned);
              && St() == p.cache && inserted == p.inserted && evicted == p.evicted
              && admissionRejected == p.admissionRejected && capacityRejected == p.capacityRejected
    {
      hide PlaceBlock;
      ghost var s := St();
      inserted, evicted, admissionRejected, capacityRejected := 0, 0, 0, 0;
      var mine := {};
      for i := 0 to |prefix|
        invariant PlaceAll(capacityBlocks, s, prefix[..i], now, pinned)
                  == Placing(St(), mine, inserted, evicted, admissionRejected, capacityRejected)
      {
        assert prefix[..i + 1][..i] == prefix[..i];
        var p := PlaceOne(prefix[i], now, pinned, mine, inserted, evicted, admissionRejected, capacityRejected);
        mine, inserted, evicted, admissionRejected, capacityRejected := p.0, p.1, p.2, p.3, p.4;
      }
      assert prefix[..|prefix|] == prefix;
    }

    method PlaceOne(b: Block, now: real, pinned: set<Block>, mine: set<Block>, inserted: nat, evicted: nat,
                    admissionRejected: nat, capacityRejected: nat)
      returns (r: (set<Block>, nat, nat, nat, nat))
      modifies this, policy
      ensures PlaceBlock(capacityBlocks, Placing(old(St()), mine, inserted, evicted, admissionRejected, capacityRejected),
                         b, now, pinned) == Placing(St(), r.0, r.1, r.2, r.3, r.4)
    {
      hide EvictAll; hide Inserted; hide VictimsOf; hide OnAdmit; hide OnLookup; hide Admits;
      r := (mine, inserted, evicted, admissionRejected, capacityRejected);
      if b in resident {
        policy.Looked(b);
        return;
      }
      var admitted := policy.Admit(b);
      if !admitted { return (mine, inserted, evicted, admissionRejected + 1, capacityRejected); }
      var needed := if |resident| + 1 > capacityBlocks then |resident| + 1 - capacityBlocks else 0;
      var victims := policy.Victims(needed, resident, pinned + mine);
      if |victims| < needed { return (mine, inserted, evicted, admissionRejected, capacityRejected + 1); }
      EvictEach(victims, now);
      Insert(b, now);
      r := (mine + {b}, inserted + 1, evicted + |victims|, admissionRejected, capacityRejected);
    }
  }
}
