/** In which order the eviction policies give up their blocks, and whom they admit
    (src/prefill_cache_sim/eviction.py).
 */
module EvictionOrder {
  import opened Lists
  import opened EvictionPolicies

  lemma {:induction false} WithoutMiddle(x: seq<Block>, b: Block, y: seq<Block>)
    requires b !in x && b !in y
    ensures Without(x + [b] + y, b) == x + y
  {
    var s := x + [b] + y;
    if x == [] {
      assert s[1..] == y;
      WithoutNothing(y, b);
    } else {
      assert s[1..] == x[1..] + [b] + y;
      WithoutMiddle(x[1..], b, y);
    }
  }

  lemma {:induction false} WithoutNothing(s: seq<Block>, b: Block)
    requires b !in s
    ensures Without(s, b) == s
  {
    if s != [] { WithoutNothing(s[1..], b); }
  }

  lemma {:induction false} OnceAround(x: seq<Block>, b: Block, y: seq<Block>)
    requires NoRepeats(x + [b] + y)
    ensures b !in x && b !in y
  {
    NoRepeatsConcat(x + [b], y);
    NoRepeatsConcat(x, [b]);
    assert b in Elements([b]);
  }

  // --- hits -----------------------------------------------------------------

  /** First in, first out: a hit changes nothing. */
  lemma FifoIgnoresHits(p: Policy, b: Block)
    requires p.Fifo?
    ensures Candidates(OnLookup(p, b)) == Candidates(p)
  {
  }

  lemma SplitAcross(probation: seq<Block>, protected: seq<Block>, x: seq<Block>, b: Block, y: seq<Block>)
    requires probation + protected == x + [b] + y && b !in probation
    ensures |x| >= |probation| && protected == x[|probation|..] + [b] + y && probation + x[|probation|..] == x
  {
    var s := probation + protected;
    assert s[|x|] == b;
    assert forall i :: 0 <= i < |probation| ==> s[i] in probation;
    assert protected == s[|probation|..] && probation == s[..|probation|];
  }

  lemma SplitWithin(probation: seq<Block>, protected: seq<Block>, x: seq<Block>, b: Block, y: seq<Block>)
    requires probation + protected == x + [b] + y && b !in protected
    ensures |x| < |probation|
    ensures var rest := probation[|x| + 1..]; probation == x + [b] + rest && rest + protected == y
  {
    var s := probation + protected;
    assert s[|x|] == b;
    assert forall i :: |probation| <= i < |s| ==> s[i] in protected;
    assert probation == s[..|probation|] && protected == s[|probation|..];
  }

  lemma ProtectedHitMoves(p: Policy, x: seq<Block>, b: Block, y: seq<Block>)
    requires p.Slru? && p.probation + p.protected == x + [b] + y && b !in x && b !in y
    requires b !in p.probation && b in p.protected
    ensures Candidates(OnLookup(p, b)) == x + y + [b]
  {
    hide Without;
    SplitAcross(p.probation, p.protected, x, b, y);
    var front := x[|p.probation|..];
    WithoutMiddle(front, b, y);
    assert p.probation + (front + y + [b]) == (p.probation + front) + y + [b];
  }

  lemma ProbationHitMoves(p: Policy, x: seq<Block>, b: Block, y: seq<Block>)
    requires p.Slru? && Sound(p) && p.probation + p.protected == x + [b] + y && b !in x && b !in y
    requires b !in p.protected
    ensures b in p.probation && Candidates(Promote(p, b)) == x + y + [b]
  {
    hide NoRepeats; hide Promote; hide Sound;
    SplitWithin(p.probation, p.protected, x, b, y);
    var rest := p.probation[|x| + 1..];
    assert forall z :: z in rest ==> z in y;
    PromotedOrder(p, x, b, rest);
    assert x + rest + p.protected + [b] == x + (rest + p.protected) + [b];
  }

  /** Under every other policy a hit block becomes the last to be evicted and the others keep their
      order; segmented LRU is no exception. */
  lemma HitMovesToEnd(p: Policy, x: seq<Block>, b: Block, y: seq<Block>)
    requires Sound(p) && !p.Fifo? && Candidates(p) == x + [b] + y
    ensures Candidates(OnLookup(p, b)) == x + y + [b]
  {
    hide NoRepeats; hide Without; hide Promote;
    OnceAround(x, b, y);
    if !p.Slru? {
      WithoutMiddle(x, b, y);
    } else if b in p.protected {
      NoRepeatsConcat(p.probation, p.protected);
      assert b !in p.probation by { assert b in Elements(p.protected); }
      ProtectedHitMoves(p, x, b, y);
    } else {
      ProbationHitMoves(p, x, b, y);
    }
  }

  lemma PromotedOrder(p: Policy, x: seq<Block>, b: Block, rest: seq<Block>)
    requires p.Slru? && Sound(p) && p.probation == x + [b] + rest && b !in p.protected && b !in x && b !in rest
    ensures Candidates(Promote(p, b)) == x + rest + p.protected + [b]
    ensures |Promote(p, b).protected| == if |p.protected| < p.protectedCapacity then |p.protected| + 1 else |p.protected|
  {
    hide NoRepeats; hide Without;
    WithoutMiddle(x, b, rest);
    var probation, protected := x + rest, p.protected + [b];
    if |protected| > p.protectedCapacity {
      NoRepeatsConcat(p.probation, p.protected);
      assert protected[0] in Elements(p.protected);
      assert protected[0] !in probation;
      assert probation + [protected[0]] + protected[1..] == probation + protected;
    }
  }

  /** A hit fills the protected segment up to its capacity and never beyond, and a protected block
      that is pushed out joins the end of probation. */
  lemma HitProtects(p: Policy, b: Block)
    requires p.Slru? && Sound(p) && b in p.probation + p.protected
    ensures var q := OnLookup(p, b);
            && q.Slru? && q.protected != [] && q.protected[|q.protected| - 1] == b
            && |q.protected| == if b in p.protected || |p.protected| == p.protectedCapacity then |p.protected|
                                else |p.protected| + 1
  {
    hide NoRepeats;
    NoRepeatsConcat(p.probation, p.protected);
    WithoutDistinct(p.protected, b);
    Listed(p.probation, b);
    Listed(p.protected, b);
    assert b in p.probation || b in p.protected;
  }

  // --- entering and leaving -------------------------------------------------

  /** A new block is the last to be evicted, except that segmented LRU evicts it before every
      protected block. */
  lemma NewBlockJoins(p: Policy, b: Block)
    requires b !in Tracked(p)
    ensures Candidates(OnInsert(p, b)) == if p.Slru? then p.probation + [b] + p.protected else Candidates(p) + [b]
  {
    assert p.Slru? ==> b !in p.probation by { if p.Slru? { Listed(p.probation + p.protected, b); } }
    assert !p.Slru? ==> b !in p.order by { if !p.Slru? { Listed(p.order, b); } }
  }

  /** A block that leaves takes nothing but itself out of the order. */
  lemma BlockLeaves(p: Policy, x: seq<Block>, b: Block, y: seq<Block>)
    requires Sound(p) && Candidates(p) == x + [b] + y
    ensures Candidates(OnRemove(p, b)) == x + y
  {
    hide NoRepeats; hide Without;
    OnceAround(x, b, y);
    if !p.Slru? {
      WithoutMiddle(x, b, y);
    } else {
      NoRepeatsConcat(p.probation, p.protected);
      if b in p.protected {
        assert b !in p.probation by { assert b in Elements(p.protected); }
        SplitAcross(p.probation, p.protected, x, b, y);
        WithoutMiddle(x[|p.probation|..], b, y);
        WithoutNothing(p.probation, b);
      } else {
        SplitWithin(p.probation, p.protected, x, b, y);
        WithoutMiddle(x, b, p.probation[|x| + 1..]);
        WithoutNothing(p.protected, b);
      }
    }
  }

  // --- victims --------------------------------------------------------------

  lemma {:induction false} FirstEligibleFirst(s: seq<Block>, n: nat, resident: set<Block>, pinned: set<Block>, i: nat, j: nat)
    requires NoRepeats(s) && i < j < |s| && Eligible(resident, pinned, s[i])
    requires s[j] in FirstEligible(s, n, resident, pinned)
    ensures s[i] in FirstEligible(s, n, resident, pinned)
  {
    var tail, left := s[1..], if Eligible(resident, pinned, s[0]) then n - 1 else n;
    if i > 0 {
      assert tail[i - 1] == s[i] && tail[j - 1] == s[j];
      assert s[j] != s[0] by { assert s[j] in tail; }
      FirstEligibleFirst(tail, left, resident, pinned, i - 1, j - 1);
    }
  }

  /** No block is evicted while one that may be evicted stands before it in the order. */
  lemma VictimsComeFirst(p: Policy, n: nat, resident: set<Block>, pinned: set<Block>, i: nat, j: nat)
    requires Sound(p) && i < j < |Candidates(p)|
    requires Candidates(p)[i] in resident && Candidates(p)[i] !in pinned
    requires Candidates(p)[j] in VictimsOf(p, n, resident, pinned)
    ensures Candidates(p)[i] in VictimsOf(p, n, resident, pinned)
  {
    FirstEligibleFirst(Candidates(p), n, resident, pinned, i, j);
  }

  // --- admission ------------------------------------------------------------

  /** Only second-hit admission ever refuses, and it admits a block for each refusal it remembers. */
  lemma OnlySecondHitRefuses(p: Policy, b: Block)
    requires Sound(p)
    ensures !Admits(p, b) ==> p.SecondHit? && Admits(OnAdmit(p, b), b)
    ensures p.SecondHit? && Admits(p, b) ==> !Admits(OnAdmit(p, b), b)
  {
    hide NoRepeats;
    if !Admits(p, b) {
      var more := p.ghosts + [b];
      assert more[|more| - 1] == b;
      assert |more| > p.ghostCapacity ==> more[1..][|more| - 2] == b;
    }
  }

  /** `blocks` are missed one after the other. */
  function Missed(p: Policy, blocks: seq<Block>): Policy
    decreases |blocks|
  {
    if blocks == [] then p else OnAdmit(Missed(p, blocks[..|blocks| - 1]), blocks[|blocks| - 1])
  }

  function Last(s: seq<Block>, n: nat): seq<Block> {
    if |s| <= n then s else s[|s| - n..]
  }

  lemma {:induction false} GhostsAreLastMissed(p: Policy, blocks: seq<Block>)
    requires p.SecondHit? && Sound(p) && NoRepeats(blocks) && forall b :: b in blocks ==> b !in p.ghosts
    ensures Missed(p, blocks).SecondHit? && Missed(p, blocks).ghostCapacity == p.ghostCapacity
    ensures Missed(p, blocks).ghosts == Last(p.ghosts + blocks, p.ghostCapacity)
    decreases |blocks|
  {
    if blocks == [] {
      assert p.ghosts + blocks == p.ghosts;
    } else {
      var front, b := blocks[..|blocks| - 1], blocks[|blocks| - 1];
      assert blocks == front + [b];
      NoRepeatsConcat(front, [b]);
      assert b in Elements([b]);
      GhostsAreLastMissed(p, front);
      assert b !in p.ghosts + front;
      assert p.ghosts + blocks == p.ghosts + front + [b];
      OneMoreGhost(p.ghosts + front, b, p.ghostCapacity);
    }
  }

  lemma OneMoreGhost(s: seq<Block>, b: Block, n: nat)
    requires n > 0 && b !in s
    ensures b !in Last(s, n)
    ensures var more := Last(s, n) + [b]; Last(s + [b], n) == if |more| > n then more[1..] else more
  {
  }

  /** A block that is refused is admitted on its next miss, if fewer other blocks than the ghost list
      holds are missed in between. */
  lemma {:induction false} RememberedWhileFewOthersMiss(p: Policy, b: Block, others: seq<Block>)
    requires p.SecondHit? && Sound(p) && b !in p.ghosts
    requires NoRepeats([b] + others) && forall x :: x in others ==> x !in p.ghosts
    ensures Admits(Missed(p, [b] + others), b) <==> |others| < p.ghostCapacity
  {
    hide NoRepeats;
    var all := p.ghosts + ([b] + others);
    GhostsAreLastMissed(p, [b] + others);
    NoRepeatsConcat([b], others);
    assert b !in others by { assert b in Elements([b]); }
    var k := |p.ghosts|;
    assert all[k] == b && forall i :: 0 <= i < |all| && i != k ==> all[i] != b;
    if |others| < p.ghostCapacity && |all| > p.ghostCapacity {
      assert Last(all, p.ghostCapacity)[k - (|all| - p.ghostCapacity)] == b;
    }
  }
}
