/** The order-independent digest ledger of the node caches (scripts/run_m12_final.py:602-640).
    Per-key digests are an arbitrary function.
 */
module DigestLedger {
  import opened Lists
  import opened KernelModel

  type Digest = bv256

  function Xor(a: Digest, b: Digest): Digest { a ^ b }

  const ZERO: Digest := 0

  /** The XOR of the digests of a list of keys. */
  function XorOf(ks: seq<string>, digest: string -> Digest): Digest {
    if ks == [] then ZERO else Xor(XorOf(ks[1..], digest), digest(ks[0]))
  }

  function Drop(ks: seq<string>, k: string): seq<string> {
    if ks == [] then [] else if ks[0] == k then ks[1..] else [ks[0]] + Drop(ks[1..], k)
  }

  lemma XorSwaps(a: Digest, b: Digest, c: Digest)
    ensures Xor(Xor(a, b), c) == Xor(Xor(a, c), b) && Xor(Xor(a, b), b) == a
  {
  }

  lemma {:induction false} DropFolds(ks: seq<string>, k: string, digest: string -> Digest)
    requires NoRepeats(ks) && k in ks
    ensures NoRepeats(Drop(ks, k)) && Elements(Drop(ks, k)) == Elements(ks) - {k}
    ensures XorOf(ks, digest) == Xor(XorOf(Drop(ks, k), digest), digest(k))
  {
    hide Xor;
    assert Elements(ks) == {ks[0]} + Elements(ks[1..]);
    if ks[0] != k {
      DropFolds(ks[1..], k, digest);
      var rest := Drop(ks[1..], k);
      assert Drop(ks, k)[1..] == rest && Elements(Drop(ks, k)) == {ks[0]} + Elements(rest);
      assert ks[0] !in Elements(ks[1..]);
      XorSwaps(XorOf(rest, digest), digest(k), digest(ks[0]));
    }
  }

  lemma KeysEmpty(ks: seq<string>)
    ensures Elements(ks) == {} ==> ks == []
  {
    assert ks != [] ==> ks[0] in Elements(ks);
  }

  /** The XOR does not depend on the order of the keys. */
  lemma {:induction false} FoldIsUnique(a: seq<string>, b: seq<string>, digest: string -> Digest)
    requires NoRepeats(a) && NoRepeats(b) && Elements(a) == Elements(b)
    ensures XorOf(a, digest) == XorOf(b, digest)
    decreases |a|
  {
    hide Xor;
    if a == [] {
      KeysEmpty(b);
    } else {
      assert a[0] in Elements(a) && a[0] in Elements(b);
      DropFolds(b, a[0], digest);
      assert Elements(a) == {a[0]} + Elements(a[1..]) && a[0] !in Elements(a[1..]);
      FoldIsUnique(a[1..], Drop(b, a[0]), digest);
    }
  }

  /** Some listing of the keys of `s`, each once. */
  ghost function Listing(s: set<string>): (ks: seq<string>)
    ensures NoRepeats(ks) && Elements(ks) == s
  {
    if s == {} then []
    else
      var k :| k in s;
      var rest := Listing(s - {k});
      assert ([k] + rest)[1..] == rest && Elements([k] + rest) == {k} + Elements(rest);
      [k] + rest
  }

  /** The XOR over a set of keys. */
  ghost function FoldOf(s: set<string>, digest: string -> Digest): Digest { XorOf(Listing(s), digest) }

  /** Whatever the order of a listing, its XOR is that of its keys. */
  lemma {:induction false} FoldOfListing(ks: seq<string>, digest: string -> Digest)
    requires NoRepeats(ks)
    ensures XorOf(ks, digest) == FoldOf(Elements(ks), digest)
  {
    FoldIsUnique(ks, Listing(Elements(ks)), digest);
  }

  lemma FoldOfNothing(digest: string -> Digest)
    ensures FoldOf({}, digest) == ZERO
  {
  }

  lemma FoldOfMore(s: set<string>, k: string, digest: string -> Digest)
    requires k !in s
    ensures FoldOf(s + {k}, digest) == Xor(FoldOf(s, digest), digest(k))
  {
    hide Xor;
    var more := [k] + Listing(s);
    assert more[1..] == Listing(s) && Elements(more) == s + {k};
    FoldOfListing(more, digest);
  }

  lemma XorAssociates(a: Digest, b: Digest, c: Digest)
    ensures Xor(Xor(a, b), c) == Xor(a, Xor(b, c)) && Xor(Xor(a, b), b) == a
  {
  }

  lemma XorUnit(a: Digest)
    ensures Xor(a, ZERO) == a
  {
  }

  lemma XorCommutes(a: Digest, b: Digest)
    ensures Xor(a, b) == Xor(b, a)
  {
  }

  lemma XorCancels(v: Digest, a: Digest, b: Digest)
    ensures Xor(Xor(v, a), b) == v <==> a == b
  {
    hide Xor;
    XorAssociates(v, a, a);
    XorAssociates(Xor(v, a), b, b);
    XorCommutes(v, a);
    XorCommutes(v, b);
    XorAssociates(a, v, v);
    XorAssociates(b, v, v);
  }

  /** The XOR of a disjoint union. */
  lemma {:induction false} FoldOfUnion(a: set<string>, b: set<string>, digest: string -> Digest)
    requires a !! b
    ensures FoldOf(a + b, digest) == Xor(FoldOf(a, digest), FoldOf(b, digest))
  {
    hide Xor; hide FoldOf;
    if b == {} {
      assert a + b == a;
      FoldOfNothing(digest);
      XorUnit(FoldOf(a, digest));
    } else {
      var k :| k in b;
      FoldOfUnion(a, b - {k}, digest);
      assert a + b == (a + (b - {k})) + {k} && b == (b - {k}) + {k};
      FoldOfMore(a + (b - {k}), k, digest);
      FoldOfMore(b - {k}, k, digest);
      XorAssociates(FoldOf(a, digest), FoldOf(b - {k}, digest), digest(k));
    }
  }

  // --- one entry ------------------------------------------------------------

  datatype Account = Account(count: int, value: Digest)

  /** An entry tells a cache: its size and the XOR over its keys. */
  ghost predicate Agrees(e: Account, resident: set<string>, digest: string -> Digest) {
    e == Account(|resident|, FoldOf(resident, digest))
  }

  /** The keys `apply` adds: admitted, and not resident or just evicted. */
  function Added(keys: set<string>, resident: set<string>, m: Mutation): set<string> {
    if m.admit then set k | k in keys && (k !in resident || k in m.evictKeys) else {}
  }

  /** An entry after `evicted` went and `added` came. */
  ghost function Booked(e: Account, evicted: set<string>, added: set<string>, digest: string -> Digest): Account {
    Account(e.count - |evicted| + |added|, Xor(Xor(e.value, FoldOf(evicted, digest)), FoldOf(added, digest)))
  }

  /** The cache a mutation asks for. */
  function Asked(resident: set<string>, keys: set<string>, m: Mutation): set<string> {
    (resident - m.evictKeys) + (if m.admit then keys else {})
  }

  /** Different sets of keys that no count and no XOR can tell apart. */
  ghost predicate Collide(a: set<string>, b: set<string>, digest: string -> Digest) {
    a != b && |a| == |b| && FoldOf(a, digest) == FoldOf(b, digest)
  }

  /** An entry that told the cache tells the cache the mutation asks for, including keys
      evicted and readmitted at once. */
  lemma BookedTells(e: Account, resident: set<string>, keys: set<string>, m: Mutation, digest: string -> Digest)
    requires Agrees(e, resident, digest) && m.evictKeys <= resident
    ensures Agrees(Booked(e, m.evictKeys, Added(keys, resident, m), digest), Asked(resident, keys, m), digest)
  {
    hide Xor; hide FoldOf;
    var kept, added := resident - m.evictKeys, Added(keys, resident, m);
    assert kept + m.evictKeys == resident && kept + added == Asked(resident, keys, m);
    FoldOfUnion(kept, m.evictKeys, digest);
    FoldOfUnion(kept, added, digest);
    XorAssociates(FoldOf(kept, digest), FoldOf(m.evictKeys, digest), ZERO);
    Apart(resident, m.evictKeys, added);
  }

  lemma Apart(resident: set<string>, evicted: set<string>, added: set<string>)
    requires evicted <= resident && (resident - evicted) !! added
    ensures |(resident - evicted) + added| == |resident| - |evicted| + |added|
  {
    assert resident == (resident - evicted) + evicted;
  }

  /** An entry stays what it was exactly when as much came as went, up to a collision. */
  lemma BookedStays(e: Account, evicted: set<string>, added: set<string>, digest: string -> Digest)
    ensures Booked(e, evicted, added, digest) == e <==> added == evicted || Collide(added, evicted, digest)
  {
    hide Xor; hide FoldOf;
    XorCancels(e.value, FoldOf(evicted, digest), FoldOf(added, digest));
  }

  /** The same, said of the cache: the mutation asks for what is there. */
  lemma NothingComesOrGoes(resident: set<string>, keys: set<string>, m: Mutation)
    requires m.evictKeys <= resident
    ensures Added(keys, resident, m) == m.evictKeys <==> Asked(resident, keys, m) == resident
  {
    var added := Added(keys, resident, m);
    if added == m.evictKeys {
      assert Asked(resident, keys, m) == (resident - m.evictKeys) + added;
    }
    if Asked(resident, keys, m) == resident {
      forall k ensures k in added <==> k in m.evictKeys {
        assert k in resident <==> k in Asked(resident, keys, m);
      }
    }
  }

  // --- the ledger object ----------------------------------------------------

  class CacheDigestLedger {
    var counts: map<string, int>
    var digests: map<string, Digest>
    const digest: string -> Digest

    constructor (digest: string -> Digest)
      ensures this.digest == digest
      ensures forall n :: Tells(n, {})
    {
      counts, digests := map[], map[];
      this.digest := digest;
      new;
      FoldOfNothing(digest);
    }

    function Snapshot(node: string): Account
      reads this
    {
      Account(if node in counts then counts[node] else 0, if node in digests then digests[node] else ZERO)
    }

    /** The ledger of `node` tells the size and XOR fold of its cache. */
    ghost predicate Tells(node: string, resident: set<string>)
      reads this
    {
      Agrees(Snapshot(node), resident, digest)
    }

    /** A node that was never booked tells the empty cache. */
    lemma UnknownNodeIsEmpty(node: string)
      requires node !in counts && node !in digests
      ensures Tells(node, {})
    {
      FoldOfNothing(digest);
    }

    /** Take the victims out, then put in the request's keys that were not resident or were
        just evicted, duplicates once. */
    method Apply(node: string, requestKeys: seq<string>, resident: set<string>, m: Mutation)
      modifies this
      ensures Snapshot(node)
              == Booked(old(Snapshot(node)), m.evictKeys, Added(Elements(requestKeys), resident, m), digest)
      ensures forall other :: other != node ==> Snapshot(other) == old(Snapshot(other))
    {
      hide Xor; hide FoldOf;
      var count, value := Snapshot(node).count, Snapshot(node).value;
      count, value := Remove(m.evictKeys, count, value);
      if m.admit {
        count, value := Add(requestKeys, resident, m, count, value);
      } else {
        FoldOfNothing(digest);
        XorUnit(value);
      }
      counts := counts[node := count];
      digests := digests[node := value];
    }

    method Remove(victims: set<string>, count0: int, value0: Digest) returns (count: int, value: Digest)
      ensures count == count0 - |victims| && value == Xor(value0, FoldOf(victims, digest))
    {
      hide Xor; hide FoldOf;
      count, value := count0, value0;
      var left := victims;
      FoldOfNothing(digest);
      XorUnit(value0);
      assert victims - left == {};
      while left != {}
        invariant left <= victims && count == count0 - |victims| + |left|
        invariant value == Xor(value0, FoldOf(victims - left, digest))
        decreases left
      {
        var k :| k in left;
        FoldOfMore(victims - left, k, digest);
        assert victims - (left - {k}) == (victims - left) + {k};
        XorAssociates(value0, FoldOf(victims - left, digest), digest(k));
        left := left - {k};
        count, value := count - 1, Xor(value, digest(k));
      }
      assert victims - left == victims;
    }

    method Add(requestKeys: seq<string>, resident: set<string>, m: Mutation, count0: int, value0: Digest)
      returns (count: int, value: Digest)
      requires m.admit
      ensures var added := Added(Elements(requestKeys), resident, m);
              count == count0 + |added| && value == Xor(value0, FoldOf(added, digest))
    {
      hide Xor; hide FoldOf; hide Elements;
      count, value := count0, value0;
      var seen := {};
      NothingListed<string>();
      FoldOfNothing(digest);
      XorUnit(value0);
      assert requestKeys[..0] == [] && Added({}, resident, m) == {};
      for i := 0 to |requestKeys|
        invariant seen == Elements(requestKeys[..i])
        invariant count == count0 + |Added(seen, resident, m)|
        invariant value == Xor(value0, FoldOf(Added(seen, resident, m), digest))
      {
        var k := requestKeys[i];
        OneMoreKey(requestKeys, i);
        if k !in seen {
          AddOne(seen, k, resident, m);
          if k !in resident || k in m.evictKeys {
            FoldOfMore(Added(seen, resident, m), k, digest);
            XorAssociates(value0, FoldOf(Added(seen, resident, m), digest), digest(k));
            count, value := count + 1, Xor(value, digest(k));
          }
          seen := seen + {k};
        }
      }
      assert requestKeys[..|requestKeys|] == requestKeys;
    }

    static lemma OneMoreKey(ks: seq<string>, i: nat)
      requires i < |ks|
      ensures Elements(ks[..i + 1]) == Elements(ks[..i]) + {ks[i]}
      ensures ks[i] in Elements(ks[..i]) ==> Elements(ks[..i + 1]) == Elements(ks[..i])
    {
      assert ks[..i + 1] == ks[..i] + [ks[i]];
    }

    static lemma AddOne(seen: set<string>, k: string, resident: set<string>, m: Mutation)
      requires m.admit && k !in seen
      ensures k !in Added(seen, resident, m)
      ensures Added(seen + {k}, resident, m)
              == Added(seen, resident, m) + (if k !in resident || k in m.evictKeys then {k} else {})
    {
    }

    /** What the recording policy does inside the mutation hook: compare the count with the
        cache it sees, refuse if they differ, and book the mutation before the kernel decides
        whether to apply it. */
    method Observe(node: string, requestKeys: seq<string>, resident: set<string>, m: Mutation) returns (diverged: bool)
      modifies this
      ensures diverged <==> old(Snapshot(node)).count != |resident|
      ensures diverged ==> forall n :: Snapshot(n) == old(Snapshot(n))
      ensures !diverged ==>
                && Snapshot(node) == Booked(old(Snapshot(node)), m.evictKeys, Added(Elements(requestKeys), resident, m), digest)
                && forall other :: other != node ==> Snapshot(other) == old(Snapshot(other))
    {
      diverged := Snapshot(node).count != |resident|;
      if !diverged { Apply(node, requestKeys, resident, m); }
    }
  }
}
