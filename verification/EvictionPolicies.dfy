/** The four block eviction policies (src/prefill_cache_sim/eviction.py).  An ordered dict
    of blocks is a sequence without repeats, oldest first.
 */
module EvictionPolicies {
  import opened Lists

  type Block = int

  datatype Policy =
    | Fifo(order: seq<Block>)
    | Lru(order: seq<Block>)
    | Slru(protectedCapacity: nat, probation: seq<Block>, protected: seq<Block>)
    | SecondHit(order: seq<Block>, ghostCapacity: nat, ghosts: seq<Block>)

  // --- ordered dicts of blocks ----------------------------------------------

  function Without(s: seq<Block>, b: Block): (r: seq<Block>)
    ensures forall x :: x in r <==> x in s && x != b
    ensures |r| <= |s|
  {
    if s == [] then []
    else if s[0] == b then Without(s[1..], b)
    else
      assert forall x :: x in s <==> x == s[0] || x in s[1..];
      [s[0]] + Without(s[1..], b)
  }

  /** Move to the end, or append. */
  function ToEnd(s: seq<Block>, b: Block): seq<Block> { Without(s, b) + [b] }

  /** Append unless already there. */
  function Ensure(s: seq<Block>, b: Block): seq<Block> { if b in s then s else s + [b] }

  lemma {:induction false} WithoutDistinct(s: seq<Block>, b: Block)
    requires NoRepeats(s)
    ensures NoRepeats(Without(s, b))
    ensures b !in s ==> Without(s, b) == s
    ensures b in s ==> |Without(s, b)| == |s| - 1
  {
    if s != [] {
      WithoutDistinct(s[1..], b);
      var rest := Without(s[1..], b);
      assert s[0] != b ==> ([s[0]] + rest)[1..] == rest;
    }
  }

  lemma {:induction false} WithoutElements(s: seq<Block>, b: Block)
    ensures Elements(Without(s, b)) == Elements(s) - {b}
  {
  }

  lemma {:induction false} ToEndDistinct(s: seq<Block>, b: Block)
    requires NoRepeats(s)
    ensures NoRepeats(ToEnd(s, b)) && Elements(ToEnd(s, b)) == Elements(s) + {b}
    ensures b in s ==> |ToEnd(s, b)| == |s|
  {
    WithoutDistinct(s, b);
    NoRepeatsMore(Without(s, b), b);
  }

  // --- what the hooks do ----------------------------------------------------

  function OnLookup(p: Policy, b: Block): Policy {
    match p
    case Fifo(_) => p
    case Lru(order) => if b in order then Lru(ToEnd(order, b)) else p
    case SecondHit(order, _, _) => if b in order then p.(order := ToEnd(order, b)) else p
    case Slru(_, _, _) =>
      if b in p.protected then p.(protected := ToEnd(p.protected, b))
      else if b in p.probation then Promote(p, b)
      else p
  }

  /** A probation block is hit: it is promoted, and the oldest protected one demoted on overflow. */
  function Promote(p: Policy, b: Block): Policy
    requires p.Slru?
  {
    var probation, protected := Without(p.probation, b), p.protected + [b];
    if |protected| > p.protectedCapacity
    then p.(probation := Ensure(probation, protected[0]), protected := protected[1..])
    else p.(probation := probation, protected := protected)
  }

  function OnInsert(p: Policy, b: Block): Policy {
    if p.Slru? then p.(probation := Ensure(p.probation, b)) else p.(order := Ensure(p.order, b))
  }

  function OnRemove(p: Policy, b: Block): Policy {
    if p.Slru? then p.(probation := Without(p.probation, b), protected := Without(p.protected, b))
    else p.(order := Without(p.order, b))
  }

  /** Whether a missed block is admitted; only the second-hit policy ever refuses. */
  function Admits(p: Policy, b: Block): bool { p.SecondHit? ==> b in p.ghosts }

  function OnAdmit(p: Policy, b: Block): Policy {
    if !p.SecondHit? then p
    else if b in p.ghosts then p.(ghosts := Without(p.ghosts, b))
    else
      var ghosts := p.ghosts + [b];
      p.(ghosts := if |ghosts| > p.ghostCapacity then ghosts[1..] else ghosts)
  }

  /** Eviction order. */
  function Candidates(p: Policy): seq<Block> {
    if p.Slru? then p.probation + p.protected else p.order
  }

  predicate Eligible(resident: set<Block>, pinned: set<Block>, b: Block) { b in resident && b !in pinned }

  /** The first `n` eligible blocks of `s`. */
  function FirstEligible(s: seq<Block>, n: nat, resident: set<Block>, pinned: set<Block>): (v: seq<Block>)
    ensures |v| <= n && forall b :: b in v ==> b in s && Eligible(resident, pinned, b)
  {
    if n == 0 || s == [] then []
    else if Eligible(resident, pinned, s[0]) then [s[0]] + FirstEligible(s[1..], n - 1, resident, pinned)
    else FirstEligible(s[1..], n, resident, pinned)
  }

  function VictimsOf(p: Policy, n: nat, resident: set<Block>, pinned: set<Block>): seq<Block> {
    FirstEligible(Candidates(p), n, resident, pinned)
  }

  lemma {:induction false} FirstEligibleDistinct(s: seq<Block>, n: nat, resident: set<Block>, pinned: set<Block>)
    requires NoRepeats(s)
    ensures NoRepeats(FirstEligible(s, n, resident, pinned))
  {
    if n > 0 && s != [] {
      FirstEligibleDistinct(s[1..], n - 1, resident, pinned);
      FirstEligibleDistinct(s[1..], n, resident, pinned);
    }
  }

  /** Fewer victims than asked for means nothing else was eligible. */
  lemma {:induction false} FirstEligibleComplete(s: seq<Block>, n: nat, resident: set<Block>, pinned: set<Block>)
    requires |FirstEligible(s, n, resident, pinned)| < n
    ensures forall b :: b in s && Eligible(resident, pinned, b) ==> b in FirstEligible(s, n, resident, pinned)
  {
    if s != [] {
      assert forall x :: x in s <==> x == s[0] || x in s[1..];
      if Eligible(resident, pinned, s[0]) {
        FirstEligibleComplete(s[1..], n - 1, resident, pinned);
      } else {
        FirstEligibleComplete(s[1..], n, resident, pinned);
      }
    }
  }

  // --- the invariant of a policy --------------------------------------------

  /** Every tracked block is tracked once, and the segments stay within bounds. */
  ghost predicate Sound(p: Policy) {
    && NoRepeats(Candidates(p))
    && (p.Slru? ==> p.protectedCapacity > 0 && |p.protected| <= p.protectedCapacity)
    && (p.SecondHit? ==> p.ghostCapacity > 0 && NoRepeats(p.ghosts) && |p.ghosts| <= p.ghostCapacity)
  }

  function Tracked(p: Policy): set<Block> { Elements(Candidates(p)) }

  lemma LookupKeeps(p: Policy, b: Block)
    requires Sound(p)
    ensures Sound(OnLookup(p, b)) && Tracked(OnLookup(p, b)) == Tracked(p)
  {
    hide NoRepeats; hide Without; hide ToEnd;
    if p.Slru? {
      NoRepeatsConcat(p.probation, p.protected);
      if b in p.protected {
        ToEndDistinct(p.protected, b);
        NoRepeatsConcat(p.probation, ToEnd(p.protected, b));
      } else if b in p.probation {
        PromoteKeeps(p, b);
      }
    } else if b in p.order {
      ToEndDistinct(p.order, b);
    }
  }

  lemma PromoteKeeps(p: Policy, b: Block)
    requires p.Slru? && Sound(p) && b in p.probation && b !in p.protected
    ensures Promote(p, b).Slru? && Sound(Promote(p, b)) && Tracked(Promote(p, b)) == Tracked(p)
  {
    hide NoRepeats; hide Without;
    NoRepeatsConcat(p.probation, p.protected);
    var probation, protected := Without(p.probation, b), p.protected + [b];
    WithoutDistinct(p.probation, b);
    WithoutElements(p.probation, b);
    NoRepeatsMore(p.protected, b);
    NoRepeatsConcat(probation, protected);
    if |protected| > p.protectedCapacity {
      DemoteKeeps(probation, protected);
    }
  }

  /** The oldest protected block moves to the end of probation. */
  lemma {:induction false} DemoteKeeps(probation: seq<Block>, protected: seq<Block>)
    requires NoRepeats(probation) && NoRepeats(protected) && Elements(probation) !! Elements(protected) && protected != []
    ensures NoRepeats(Ensure(probation, protected[0]) + protected[1..])
    ensures Elements(Ensure(probation, protected[0]) + protected[1..]) == Elements(probation) + Elements(protected)
  {
    var oldest, rest := protected[0], protected[1..];
    assert Elements(protected) == {oldest} + Elements(rest);
    assert oldest !in probation by { assert oldest in Elements(protected); }
    NoRepeatsMore(probation, oldest);
    NoRepeatsConcat(probation + [oldest], rest);
  }

  lemma InsertKeeps(p: Policy, b: Block)
    requires Sound(p)
    ensures Tracked(OnInsert(p, b)) == Tracked(p) + {b}
    ensures b !in Tracked(p) ==> Sound(OnInsert(p, b))
  {
    hide NoRepeats;
    if p.Slru? {
      NoRepeatsConcat(p.probation, p.protected);
      if b !in p.probation { NoRepeatsMore(p.probation, b); }
      NoRepeatsConcat(Ensure(p.probation, b), p.protected);
    } else if b !in p.order {
      NoRepeatsMore(p.order, b);
    }
  }

  lemma RemoveKeeps(p: Policy, b: Block)
    requires Sound(p)
    ensures Sound(OnRemove(p, b)) && Tracked(OnRemove(p, b)) == Tracked(p) - {b}
  {
    hide NoRepeats; hide Without; hide Elements;
    if p.Slru? {
      NoRepeatsConcat(p.probation, p.protected);
      WithoutDistinct(p.probation, b);
      WithoutDistinct(p.protected, b);
      WithoutElements(p.probation, b);
      WithoutElements(p.protected, b);
      NoRepeatsConcat(Without(p.probation, b), Without(p.protected, b));
    } else {
      WithoutDistinct(p.order, b);
      WithoutElements(p.order, b);
    }
  }

  lemma AdmitKeeps(p: Policy, b: Block)
    requires Sound(p)
    ensures Sound(OnAdmit(p, b)) && Tracked(OnAdmit(p, b)) == Tracked(p)
    ensures Candidates(OnAdmit(p, b)) == Candidates(p)
  {
    if p.SecondHit? {
      WithoutDistinct(p.ghosts, b);
      if b !in p.ghosts { NoRepeatsMore(p.ghosts, b); }
    }
  }

  /** Victims are distinct tracked blocks, and a pinned block is never among them. */
  lemma VictimsAreEligible(p: Policy, n: nat, resident: set<Block>, pinned: set<Block>)
    requires Sound(p)
    ensures NoRepeats(VictimsOf(p, n, resident, pinned))
    ensures forall b :: b in VictimsOf(p, n, resident, pinned) ==> b in resident && b !in pinned
  {
    FirstEligibleDistinct(Candidates(p), n, resident, pinned);
  }

  lemma {:induction false} NextCandidate(order: seq<Block>, i: nat, n: nat, resident: set<Block>, pinned: set<Block>)
    requires i < |order| && n > 0
    ensures FirstEligible(order[i..], n, resident, pinned)
            == (if Eligible(resident, pinned, order[i])
                then [order[i]] + FirstEligible(order[i + 1..], n - 1, resident, pinned)
                else FirstEligible(order[i + 1..], n, resident, pinned))
  {
    assert order[i..][1..] == order[i + 1..];
  }

  // --- the policy objects ---------------------------------------------------

  class EvictionPolicy {
    var state: Policy

    constructor (state: Policy)
      ensures this.state == state
    {
      this.state := state;
    }

    method Looked(b: Block)
      modifies this
      ensures state == OnLookup(old(state), b)
    {
      if state.Slru? {
        if b in state.protected {
          state := state.(protected := ToEnd(state.protected, b));
        } else if b in state.probation {
          state := state.(probation := Without(state.probation, b), protected := state.protected + [b]);
          if |state.protected| > state.protectedCapacity {
            var demoted := state.protected[0];
            state := state.(protected := state.protected[1..], probation := Ensure(state.probation, demoted));
          }
        }
      } else if !state.Fifo? && b in state.order {
        state := state.(order := ToEnd(state.order, b));
      }
    }

    method Inserted(b: Block)
      modifies this
      ensures state == OnInsert(old(state), b)
    {
      state := OnInsert(state, b);
    }

    method Removed(b: Block)
      modifies this
      ensures state == OnRemove(old(state), b)
    {
      state := OnRemove(state, b);
    }

    method Admit(b: Block) returns (admitted: bool)
      modifies this
      ensures admitted == Admits(old(state), b) && state == OnAdmit(old(state), b)
    {
      admitted := true;
      if state.SecondHit? {
        if b in state.ghosts {
          state := state.(ghosts := Without(state.ghosts, b));
        } else {
          state := state.(ghosts := state.ghosts + [b]);
          if |state.ghosts| > state.ghostCapacity { state := state.(ghosts := state.ghosts[1..]); }
          admitted := false;
        }
      }
    }

    /** Walk the eviction order until enough eligible blocks are found. */
    method Victims(required: nat, resident: set<Block>, pinned: set<Block>) returns (victims: seq<Block>)
      ensures victims == VictimsOf(state, required, resident, pinned)
    {
      hide FirstEligible;
      victims := [];
      var order, i := Candidates(state), 0;
      assert order[0..] == order;
      while i < |order| && |victims| < required
        invariant i <= |order| && |victims| <= required
        invariant VictimsOf(state, required, resident, pinned)
                  == victims + FirstEligible(order[i..], required - |victims|, resident, pinned)
        decreases |order| - i
      {
        NextCandidate(order, i, required - |victims|, resident, pinned);
        if Eligible(resident, pinned, order[i]) { victims := victims + [order[i]]; }
        i := i + 1;
      }
      NothingEligible(order[i..], required - |victims|, resident, pinned);
    }
  }

  lemma {:induction false} NothingEligible(s: seq<Block>, n: nat, resident: set<Block>, pinned: set<Block>)
    ensures n == 0 || s == [] ==> FirstEligible(s, n, resident, pinned) == []
  {
  }
}
