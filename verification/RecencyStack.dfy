/** The recency stack of a reference stream, and why an LRU list of capacity C is its top
    C entries (src/prefill_cache_sim/eviction.py:50-56).
 */
module RecencyStack {
  import opened Lists
  import opened EvictionPolicies

  /** Reference the blocks of `refs` in turn: each moves to the end. */
  function Referenced(stack: seq<Block>, refs: seq<Block>): seq<Block>
    decreases |refs|
  {
    if refs == [] then stack else ToEnd(Referenced(stack, refs[..|refs| - 1]), refs[|refs| - 1])
  }

  /** The `c` most recent entries. */
  function Top(stack: seq<Block>, c: nat): seq<Block> {
    if |stack| <= c then stack else stack[|stack| - c..]
  }

  /** One LRU reference within capacity `c`. */
  function LruStep(order: seq<Block>, b: Block, c: nat): seq<Block> {
    if b in order then ToEnd(order, b)
    else if |order| < c || order == [] then order + [b]
    else order[1..] + [b]
  }

  function LruSteps(order: seq<Block>, refs: seq<Block>, c: nat): seq<Block>
    decreases |refs|
  {
    if refs == [] then order else LruStep(LruSteps(order, refs[..|refs| - 1], c), refs[|refs| - 1], c)
  }

  lemma {:induction false} WithoutConcat(a: seq<Block>, b: seq<Block>, x: Block)
    ensures Without(a + b, x) == Without(a, x) + Without(b, x)
  {
    if a == [] {
      assert a + b == b;
    } else {
      assert (a + b)[1..] == a[1..] + b;
      WithoutConcat(a[1..], b, x);
    }
  }

  lemma {:induction false} WithoutAbsent(s: seq<Block>, x: Block)
    requires x !in s
    ensures Without(s, x) == s
  {
    if s != [] {
      WithoutAbsent(s[1..], x);
    }
  }

  lemma TopOf(below: seq<Block>, top: seq<Block>, c: nat)
    requires |top| == c || (below == [] && |top| <= c)
    ensures Top(below + top, c) == top
  {
  }

  lemma TopPush(below: seq<Block>, top: seq<Block>, b: Block, c: nat)
    requires c > 0 && (|top| == c || (below == [] && |top| < c))
    ensures Top(below + (top + [b]), c) == if |top| < c then top + [b] else top[1..] + [b]
  {
    if |top| < c {
      TopOf([], top + [b], c);
      assert [] + (top + [b]) == top + [b];
    } else {
      TopOf(below + [top[0]], top[1..] + [b], c);
      assert below + (top + [b]) == below + [top[0]] + (top[1..] + [b]);
    }
  }

  lemma {:induction false} ReferenceInTop(below: seq<Block>, top: seq<Block>, b: Block)
    requires NoRepeats(below + top) && b in top
    ensures ToEnd(below + top, b) == below + ToEnd(top, b) && |ToEnd(top, b)| == |top|
  {
    hide NoRepeats; hide Without;
    NoRepeatsConcat(below, top);
    assert b !in below by { assert b in Elements(top); }
    WithoutConcat(below, top, b);
    WithoutAbsent(below, b);
    WithoutDistinct(top, b);
  }

  lemma {:induction false} ReferenceBelow(below: seq<Block>, top: seq<Block>, b: Block)
    requires b !in top
    ensures ToEnd(below + top, b) == Without(below, b) + (top + [b])
  {
    hide Without;
    WithoutConcat(below, top, b);
    WithoutAbsent(top, b);
  }

  /** The stack property: moving a block to the top of the whole stack and cutting at `c`
      is one LRU reference on the cut stack. */
  lemma {:induction false} StackStep(stack: seq<Block>, b: Block, c: nat)
    requires NoRepeats(stack) && c > 0
    ensures NoRepeats(ToEnd(stack, b)) && Top(ToEnd(stack, b), c) == LruStep(Top(stack, c), b, c)
  {
    hide NoRepeats; hide ToEnd; hide Without;
    ToEndDistinct(stack, b);
    var top := Top(stack, c);
    var below := stack[..|stack| - |top|];
    assert stack == below + top;
    if b in top {
      ReferenceInTop(below, top, b);
      TopOf(below, ToEnd(top, b), c);
    } else {
      ReferenceBelow(below, top, b);
      TopPush(Without(below, b), top, b, c);
    }
  }

  lemma {:induction false} StackSteps(stack: seq<Block>, refs: seq<Block>, c: nat)
    requires NoRepeats(stack) && c > 0
    ensures NoRepeats(Referenced(stack, refs)) && Top(Referenced(stack, refs), c) == LruSteps(Top(stack, c), refs, c)
    decreases |refs|
  {
    if refs != [] {
      StackSteps(stack, refs[..|refs| - 1], c);
      StackStep(Referenced(stack, refs[..|refs| - 1]), refs[|refs| - 1], c);
    }
  }

  // --- referencing a prefix twice is referencing it once --------------------

  function Dropping(s: seq<Block>, ks: set<Block>): seq<Block> {
    if s == [] then [] else if s[0] in ks then Dropping(s[1..], ks) else [s[0]] + Dropping(s[1..], ks)
  }

  lemma {:induction false} DroppingConcat(a: seq<Block>, b: seq<Block>, ks: set<Block>)
    ensures Dropping(a + b, ks) == Dropping(a, ks) + Dropping(b, ks)
  {
    if a == [] {
      assert a + b == b;
    } else {
      assert (a + b)[1..] == a[1..] + b;
      DroppingConcat(a[1..], b, ks);
    }
  }

  lemma {:induction false} DroppingTwice(s: seq<Block>, ks: set<Block>, ls: set<Block>)
    requires ks <= ls
    ensures Dropping(Dropping(s, ks), ls) == Dropping(s, ls)
  {
    if s != [] {
      DroppingTwice(s[1..], ks, ls);
      DroppingConcat([s[0]], Dropping(s[1..], ks), ls);
      assert Dropping([s[0]], ls) == if s[0] in ls then [] else [s[0]];
    }
  }

  lemma {:induction false} DroppingOne(s: seq<Block>, ks: set<Block>, x: Block)
    ensures Without(Dropping(s, ks), x) == Dropping(s, ks + {x})
  {
    if s != [] {
      DroppingOne(s[1..], ks, x);
      WithoutConcat([s[0]], Dropping(s[1..], ks), x);
      assert Without([s[0]], x) == if s[0] == x then [] else [s[0]];
    }
  }

  lemma {:induction false} DroppingEverything(s: seq<Block>, ks: set<Block>)
    requires Elements(s) <= ks
    ensures Dropping(s, ks) == []
  {
    if s != [] {
      assert Elements(s) == {s[0]} + Elements(s[1..]);
      DroppingEverything(s[1..], ks);
    }
  }

  lemma {:induction false} DroppingNothing(s: seq<Block>)
    ensures Dropping(s, {}) == s
  {
    if s != [] {
      DroppingNothing(s[1..]);
    }
  }

  /** Referencing `refs` sinks the rest of the stack and stacks `refs` on top. */
  lemma {:induction false} ReferencedForm(stack: seq<Block>, refs: seq<Block>)
    ensures Referenced(stack, refs) == Dropping(stack, Elements(refs)) + Referenced([], refs)
    ensures Elements(Referenced([], refs)) == Elements(refs)
    decreases |refs|
  {
    if refs == [] {
      DroppingNothing(stack);
      assert Elements(refs) == {};
    } else {
      var front, b := refs[..|refs| - 1], refs[|refs| - 1];
      assert refs == front + [b];
      ReferencedForm(stack, front);
      WithoutConcat(Dropping(stack, Elements(front)), Referenced([], front), b);
      DroppingOne(stack, Elements(front), b);
      assert Elements(refs) == Elements(front) + {b};
      WithoutElements(Referenced([], front), b);
      assert Elements(ToEnd(Referenced([], front), b)) == Elements(Without(Referenced([], front), b)) + {b};
    }
  }

  lemma {:induction false} LookupAddsNothing(stack: seq<Block>, hits: seq<Block>, refs: seq<Block>)
    requires Elements(hits) <= Elements(refs)
    ensures Referenced(Referenced(stack, hits), refs) == Referenced(stack, refs)
  {
    hide Referenced; hide Dropping;
    var once := Referenced(stack, hits);
    ReferencedForm(stack, hits);
    ReferencedForm(once, refs);
    ReferencedForm(stack, refs);
    DroppingConcat(Dropping(stack, Elements(hits)), Referenced([], hits), Elements(refs));
    DroppingTwice(stack, Elements(hits), Elements(refs));
    DroppingEverything(Referenced([], hits), Elements(refs));
  }

  lemma {:induction false} ReferencedConcat(stack: seq<Block>, a: seq<Block>, b: seq<Block>)
    ensures Referenced(stack, a + b) == Referenced(Referenced(stack, a), b)
    decreases |b|
  {
    if b == [] {
      assert a + b == a;
    } else {
      var front, last := b[..|b| - 1], b[|b| - 1];
      assert (a + b)[..|a + b| - 1] == a + front;
      ReferencedConcat(stack, a, front);
    }
  }
}
