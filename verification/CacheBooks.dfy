/** The books a node cache keeps beside its blocks (src/prefill_cache_sim/cache.py:41-159): accesses
    since insertion, one-hit pollution, eviction regret, stranded blocks and the outcome of every
    placement.
 */
module CacheBooks {
  import opened Lists
  import opened EvictionPolicies
  import opened ResidencyHistory
  import opened NodeCache

  // --- accesses and pollution -----------------------------------------------

  /** A lookup counts one access for each leading resident block, and touches nothing else but the
      order of eviction and, perhaps, the regret. */
  lemma {:induction false} TouchesCount(s: CacheState, blocks: seq<Block>, b: Block)
    ensures var t := TouchAll(s, blocks);
            && AccessesOf(t.accesses, b) == AccessesOf(s.accesses, b) + multiset(blocks)[b]
            && t == s.(policy := t.policy, accesses := t.accesses)
    decreases |blocks|
  {
    if blocks != [] {
      var front, x := blocks[..|blocks| - 1], blocks[|blocks| - 1];
      assert blocks == front + [x];
      TouchesCount(s, front, b);
    }
  }

  lemma LookupCounts(s: CacheState, prefix: seq<Block>, n: nat, b: Block)
    requires n <= |prefix| && (forall i :: 0 <= i < n ==> prefix[i] in s.resident)
    requires n < |prefix| ==> prefix[n] !in s.resident
    ensures var t := LookedUp(s, prefix);
            && AccessesOf(t.accesses, b) == AccessesOf(s.accesses, b) + multiset(prefix[..n])[b]
            && t == s.(policy := t.policy, accesses := t.accesses, evictionRegret := t.evictionRegret)
  {
    HitCountIs(s.resident, prefix, n);
    TouchesCount(s, prefix[..n], b);
  }

  /** A block enters without accesses. */
  lemma EntersUntouched(s: CacheState, b: Block, at: real, x: Block)
    ensures var t := Inserted(s, b, at);
            && AccessesOf(t.accesses, x) == (if x == b then 0 else AccessesOf(s.accesses, x))
            && t.evictionRegret == s.evictionRegret && t.oneHitPollution == s.oneHitPollution
  {
  }

  /** How many of the blocks were looked up at most once since they entered. */
  function HardlyUsed(accesses: map<Block, nat>, blocks: seq<Block>): nat {
    if blocks == [] then 0 else HardlyUsed(accesses, blocks[1..]) + if AccessesOf(accesses, blocks[0]) >= 2 then 0 else 1
  }

  lemma {:induction false} HardlyUsedMore(accesses: map<Block, nat>, blocks: seq<Block>, b: Block)
    ensures HardlyUsed(accesses, blocks + [b])
            == HardlyUsed(accesses, blocks) + if AccessesOf(accesses, b) >= 2 then 0 else 1
  {
    if blocks == [] {
      assert [b][1..] == [];
    } else {
      assert (blocks + [b])[1..] == blocks[1..] + [b];
      HardlyUsedMore(accesses, blocks[1..], b);
    }
  }

  /** Pollution is the number of victims that were hardly used; the others keep their counts. */
  lemma {:induction false} PollutionCountsVictims(s: CacheState, victims: seq<Block>, at: real)
    requires NoRepeats(victims)
    ensures var t := EvictAll(s, victims, at);
            && t.oneHitPollution == s.oneHitPollution + HardlyUsed(s.accesses, victims)
            && t.evictionRegret == s.evictionRegret
            && forall b :: AccessesOf(t.accesses, b) == if b in victims then 0 else AccessesOf(s.accesses, b)
    decreases |victims|
  {
    if victims != [] {
      var front, v := victims[..|victims| - 1], victims[|victims| - 1];
      assert victims == front + [v];
      NoRepeatsConcat(front, [v]);
      assert v !in front by { assert v in Elements([v]); }
      PollutionCountsVictims(s, front, at);
      HardlyUsedMore(s.accesses, front, v);
    }
  }

  // --- regret ---------------------------------------------------------------

  ghost predicate WasHere(log: seq<Change>, b: Block) {
    exists i :: 0 <= i < |log| && log[i].Added? && log[i].block == b
  }

  /** The history lists exactly the blocks that ever entered. */
  ghost predicate Remembers(s: CacheState) {
    forall b :: IntervalsOf(s.history, b) != [] <==> WasHere(s.log, b)
  }

  lemma WasHereMore(log: seq<Change>, x: Change, b: Block)
    ensures WasHere(log + [x], b) <==> WasHere(log, b) || (x.Added? && x.block == b)
  {
    var more := log + [x];
    assert more[|log|] == x && forall i :: 0 <= i < |log| ==> more[i] == log[i];
    if WasHere(log, b) {
      var i :| 0 <= i < |log| && log[i].Added? && log[i].block == b;
      assert more[i].Added? && more[i].block == b;
    }
  }

  lemma EvictionIsRemembered(s: CacheState, v: Block, at: real)
    requires Remembers(s)
    ensures Remembers(Evicted(s, v, at))
  {
    hide OnRemove;
    var t := Evicted(s, v, at);
    forall b ensures IntervalsOf(t.history, b) != [] <==> WasHere(t.log, b) {
      WasHereMore(s.log, Dropped(v, at), b);
      assert IntervalsOf(s.history, b) != [] <==> WasHere(s.log, b);
    }
  }

  lemma InsertionIsRemembered(s: CacheState, x: Block, at: real)
    requires Remembers(s)
    ensures Remembers(Inserted(s, x, at))
  {
    hide OnInsert;
    var t := Inserted(s, x, at);
    forall b ensures IntervalsOf(t.history, b) != [] <==> WasHere(t.log, b) {
      WasHereMore(s.log, Added(x, at), b);
      assert IntervalsOf(s.history, b) != [] <==> WasHere(s.log, b);
    }
  }

  lemma {:induction false} EvictionsAreRemembered(s: CacheState, victims: seq<Block>, at: real)
    requires Remembers(s)
    ensures Remembers(EvictAll(s, victims, at))
    decreases |victims|
  {
    hide Evicted; hide Remembers;
    if victims != [] {
      EvictionsAreRemembered(s, victims[..|victims| - 1], at);
      EvictionIsRemembered(EvictAll(s, victims[..|victims| - 1], at), victims[|victims| - 1], at);
    }
  }

  lemma SameBooks(s: CacheState, t: CacheState)
    requires Remembers(s) && t.history == s.history && t.log == s.log
    ensures Remembers(t)
  {
  }

  lemma PlacedBlockIsRemembered(capacity: nat, p: Placing, b: Block, at: real, pinned: set<Block>)
    requires Remembers(p.cache)
    ensures Remembers(PlaceBlock(capacity, p, b, at, pinned).cache)
  {
    hide Remembers; hide EvictAll; hide Inserted; hide VictimsOf; hide OnAdmit; hide OnLookup; hide Admits;
    var s, t := p.cache, PlaceBlock(capacity, p, b, at, pinned).cache;
    if b !in s.resident && Admits(s.policy, b) {
      var admitted := s.(policy := OnAdmit(s.policy, b));
      var needed := if |s.resident| + 1 > capacity then |s.resident| + 1 - capacity else 0;
      var victims := VictimsOf(admitted.policy, needed, s.resident, pinned + p.mine);
      SameBooks(s, admitted);
      if |victims| >= needed {
        EvictionsAreRemembered(admitted, victims, at);
        InsertionIsRemembered(EvictAll(admitted, victims, at), b, at);
      }
    } else {
      SameBooks(s, t);
    }
  }

  lemma {:induction false} PlacementIsRemembered(capacity: nat, s: CacheState, prefix: seq<Block>, at: real, pinned: set<Block>)
    requires Remembers(s)
    ensures Remembers(Placed(capacity, s, prefix, at, pinned))
    decreases |prefix|
  {
    hide Remembers; hide PlaceBlock;
    if prefix != [] {
      var front := prefix[..|prefix| - 1];
      PlacementIsRemembered(capacity, s, front, at, pinned);
      PlacedBlockIsRemembered(capacity, PlaceAll(capacity, s, front, at, pinned), prefix[|prefix| - 1], at, pinned);
    }
  }

  lemma {:induction false} RunIsRemembered(capacity: nat, policy: Policy, ops: seq<Op>)
    ensures Remembers(Run(capacity, Fresh(policy), ops))
    decreases |ops|
  {
    hide LookedUp; hide Placed;
    if ops != [] {
      var s, op := Run(capacity, Fresh(policy), ops[..|ops| - 1]), ops[|ops| - 1];
      RunIsRemembered(capacity, policy, ops[..|ops| - 1]);
      if op.DoLookup? {
        TouchExtendsNothing(s, op.prefix);
        SameBooks(s, LookedUp(s, op.prefix));
      } else {
        PlacementIsRemembered(capacity, s, op.prefix, op.at, op.pinned);
      }
    }
  }

  lemma TouchExtendsNothing(s: CacheState, prefix: seq<Block>)
    ensures LookedUp(s, prefix).history == s.history && LookedUp(s, prefix).log == s.log
  {
    TouchesCount(s, prefix[..HitCount(s.resident, prefix)], 0);
  }

  /** Regret counts the lookups whose first miss is of a block that was resident once: after any run
      in time, and for no other block. */
  lemma {:induction false} RegretCountsReturns(capacity: nat, policy: Policy, ops: seq<Op>, now: real,
                                               prefix: seq<Block>, n: nat)
    requires Sound(policy) && Tracked(policy) == {} && InTime(ops) && (ops != [] ==> ops[|ops| - 1].at <= now)
    requires var s := Run(capacity, Fresh(policy), ops);
             && n <= |prefix| && (forall i :: 0 <= i < n ==> prefix[i] in s.resident)
             && (n < |prefix| ==> prefix[n] !in s.resident)
    ensures var s := Run(capacity, Fresh(policy), ops);
            LookedUp(s, prefix).evictionRegret
            == s.evictionRegret + if n < |prefix| && WasHere(s.log, prefix[n]) then 1 else 0
  {
    hide Sound; hide Tracked; hide WasHere; hide Run;
    var s := Run(capacity, Fresh(policy), ops);
    RunKeeps(capacity, policy, ops, now);
    RunIsRemembered(capacity, policy, ops);
    HitCountIs(s.resident, prefix, n);
    TouchesCount(s, prefix[..n], 0);
    if n < |prefix| { DroppedMeans(s, now, prefix[n]); }
  }

  lemma DroppedMeans(s: CacheState, now: real, b: Block)
    requires Good(s, now) && Remembers(s) && b !in s.resident
    ensures WasDropped(s.history, b) <==> WasHere(s.log, b)
  {
    hide Sound; hide Tracked; hide Agrees; hide WasHere;
    assert Tells(IntervalsOf(s.history, b), s.log, now, b);
    assert IntervalsOf(s.history, b) != [] <==> WasHere(s.log, b);
  }

  // --- placements -----------------------------------------------------------

  lemma {:induction false} OneVictim(s: seq<Block>, resident: set<Block>, pinned: set<Block>)
    ensures var v := FirstEligible(s, 1, resident, pinned);
            && (|v| == 1 <==> exists b :: b in s && Eligible(resident, pinned, b))
            && |v| <= 1
            && (|v| == 1 ==> v[0] in s && Eligible(resident, pinned, v[0]))
  {
    var v := FirstEligible(s, 1, resident, pinned);
    if |v| == 1 {
      VictimIsListed(s, 1, resident, pinned, 0);
    } else {
      FirstEligibleComplete(s, 1, resident, pinned);
    }
  }

  lemma {:induction false} VictimIsListed(s: seq<Block>, n: nat, resident: set<Block>, pinned: set<Block>, i: nat)
    requires i < |FirstEligible(s, n, resident, pinned)|
    ensures var v := FirstEligible(s, n, resident, pinned); v[i] in s && Eligible(resident, pinned, v[i])
  {
    var v := FirstEligible(s, n, resident, pinned);
    hide FirstEligible;
    var b := v[i];
    assert b in v;
  }

  /** No reason to keep the block: neither pinned nor placed by the same request. */
  ghost predicate Spare(p: Placing, pinned: set<Block>, b: Block) {
    b in p.cache.resident && b !in pinned && b !in p.mine
  }

  lemma VictimIsSpare(p: Placing, q: Policy, pinned: set<Block>)
    requires Tracked(q) == p.cache.resident
    ensures var v := VictimsOf(q, 1, p.cache.resident, pinned + p.mine);
            && (|v| == 1 <==> exists b :: Spare(p, pinned, b)) && |v| <= 1
            && (|v| == 1 ==> Spare(p, pinned, v[0]))
  {
    var s, resident := Candidates(q), p.cache.resident;
    var v := VictimsOf(q, 1, resident, pinned + p.mine);
    OneVictim(s, resident, pinned + p.mine);
    forall b ensures (b in s && Eligible(resident, pinned + p.mine, b)) <==> Spare(p, pinned, b) {
      Listed(s, b);
    }
  }

  /** What becomes of one block of a placement.  Resident, it is refreshed; refused, it is counted as
      such; with room, it enters; without, it takes the place of the first spare block in the order
      of eviction, or is counted as rejected when there is none. */
  lemma PlacementOutcome(capacity: nat, p: Placing, b: Block, at: real, pinned: set<Block>)
    requires Good(p.cache, at) && |p.cache.resident| <= capacity
    ensures var c, q := p.cache, PlaceBlock(capacity, p, b, at, pinned);
            var enters := b !in c.resident && Admits(c.policy, b)
                          && (|c.resident| < capacity || exists x :: Spare(p, pinned, x));
            && (!enters ==> q.cache.resident == c.resident && q.mine == p.mine)
            && (enters ==> b in q.cache.resident && q.mine == p.mine + {b})
            && (enters && |c.resident| < capacity ==> q.cache.resident == c.resident + {b})
            && (enters && |c.resident| == capacity ==>
                  exists v :: Spare(p, pinned, v) && q.cache.resident == c.resident - {v} + {b}
                              && VictimsOf(OnAdmit(c.policy, b), 1, c.resident, pinned + p.mine) == [v])
            && q.inserted == p.inserted + (if enters then 1 else 0)
            && q.evicted == p.evicted + (if enters && |c.resident| == capacity then 1 else 0)
            && q.admissionRejected == p.admissionRejected + (if b !in c.resident && !Admits(c.policy, b) then 1 else 0)
            && q.capacityRejected
               == p.capacityRejected + (if b !in c.resident && Admits(c.policy, b) && !enters then 1 else 0)
  {
    hide Sound; hide Tracked; hide TellsAll; hide VictimsOf; hide OnLookup; hide OnAdmit; hide Admits; hide OnRemove; hide OnInsert;
    var c := p.cache;
    if b !in c.resident && Admits(c.policy, b) {
      AdmitKeeps(c.policy, b);
      var admitted := c.(policy := OnAdmit(c.policy, b));
      VictimIsSpare(p, admitted.policy, pinned);
      NoVictims(admitted.policy, c.resident, pinned + p.mine);
      var victims := VictimsOf(admitted.policy, 1, c.resident, pinned + p.mine);
      if |c.resident| == capacity && |victims| == 1 {
        assert victims == [victims[0]];
        assert EvictAll(admitted, victims, at) == Evicted(EvictAll(admitted, [], at), victims[0], at) by {
          assert victims[..0] == [];
        }
      }
    }
  }

  lemma NoVictims(q: Policy, resident: set<Block>, kept: set<Block>)
    ensures VictimsOf(q, 0, resident, kept) == []
  {
  }

  /** How many blocks of a placement are found resident when their turn comes. */
  function Refreshed(capacity: nat, s: CacheState, prefix: seq<Block>, at: real, pinned: set<Block>): nat
    decreases |prefix|
  {
    if prefix == [] then 0
    else
      var front := prefix[..|prefix| - 1];
      Refreshed(capacity, s, front, at, pinned)
      + if prefix[|prefix| - 1] in PlaceAll(capacity, s, front, at, pinned).cache.resident then 1 else 0
  }

  /** Every block of a placement is accounted for once. */
  lemma {:induction false} PlacementAddsUp(capacity: nat, s: CacheState, prefix: seq<Block>, at: real, pinned: set<Block>)
    ensures var p := PlaceAll(capacity, s, prefix, at, pinned);
            p.inserted + p.admissionRejected + p.capacityRejected + Refreshed(capacity, s, prefix, at, pinned) == |prefix|
    decreases |prefix|
  {
    hide EvictAll; hide Inserted; hide VictimsOf; hide OnAdmit; hide OnLookup; hide Admits;
    if prefix != [] { PlacementAddsUp(capacity, s, prefix[..|prefix| - 1], at, pinned); }
  }

  // --- lookups --------------------------------------------------------------

  /** Stranded are the resident blocks behind the first miss, position by position. */
  lemma {:induction false} StrandedArePositions(resident: set<Block>, blocks: seq<Block>)
    ensures CountResident(resident, blocks) == |set i | 0 <= i < |blocks| && blocks[i] in resident|
    decreases |blocks|
  {
    var all := set i | 0 <= i < |blocks| && blocks[i] in resident;
    if blocks == [] {
      assert all == {};
    } else {
      var n := |blocks| - 1;
      var front := blocks[..n];
      StrandedArePositions(resident, front);
      var before := set i | 0 <= i < |front| && front[i] in resident;
      assert all == before + if blocks[n] in resident then {n} else {};
    }
  }

  lemma LookupReports(s: CacheState, prefix: seq<Block>, sizes: seq<nat>, n: nat)
    requires |prefix| == |sizes| && n <= |prefix| && forall i :: 0 <= i < n ==> prefix[i] in s.resident
    requires n < |prefix| ==> prefix[n] !in s.resident
    ensures var r := LookupOf(s, prefix, sizes);
            && r.hitBlocks == n && r.missed == prefix[n..] && r.hitTokens == SumOf(sizes[..n])
            && (n == |prefix| ==> r.stranded == 0)
            && (n < |prefix| ==>
                  var rest := prefix[n + 1..]; r.stranded == |set i | 0 <= i < |rest| && rest[i] in s.resident|)
  {
    hide SumOf; hide CountResident;
    HitCountIs(s.resident, prefix, n);
    if n < |prefix| { StrandedArePositions(s.resident, prefix[n + 1..]); }
  }
}
