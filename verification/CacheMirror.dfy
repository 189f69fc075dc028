/** The eviction policy's recency index in LRU mode, an incremental mirror of the kernel's node
    cache (src/prefill_cache_sim/m12_eviction.py:288-386), and when the two stay in step.
 */
module CacheMirror {
  import opened Options
  import opened Lists
  import opened OrderedDicts
  import KernelModel

  /** Least recently used first. */
  type Index = Dict<string, ()>

  function KeysIn(d: Index): set<string> {
    if d == [] then {} else {d[0].0} + KeysIn(d[1..])
  }

  /** The index holds exactly the resident keys. */
  predicate Mirrors(d: Index, resident: set<string>) { Distinct(d) && KeysIn(d) == resident }

  lemma {:induction false} HasIsIn(d: Index, k: string)
    ensures Has(d, k) <==> k in KeysIn(d)
  {
    if d != [] { HasIsIn(d[1..], k); }
  }

  function FirstVictims(d: Index, resident: set<string>, n: nat): seq<string> {
    if d == [] || n == 0 then []
    else if d[0].0 in resident then [d[0].0] + FirstVictims(d[1..], resident, n - 1)
    else FirstVictims(d[1..], resident, n)
  }

  function PopAll(d: Index, ks: seq<string>): Index
    decreases |ks|
  {
    if ks == [] then d else Pop(PopAll(d, ks[..|ks| - 1]), ks[|ks| - 1])
  }

  function PutAll(d: Index, ks: seq<string>): Index
    decreases |ks|
  {
    if ks == [] then d else Put(PutAll(d, ks[..|ks| - 1]), ks[|ks| - 1], ())
  }

  /** A hit moves its key to the end. */
  function MovedToEnd(d: Index, k: string): Index { if Has(d, k) then Pop(d, k) + [(k, ())] else d }

  function Required(resident: set<string>, additions: set<string>, capacity: nat): nat {
    if |resident| + |additions| > capacity then |resident| + |additions| - capacity else 0
  }

  /** `cache_mutation` in LRU mode: the victims and the next index, or nothing when the
      index cannot name enough victims. */
  function LruMutation(d: Index, resident: set<string>, keys: set<string>, order: seq<string>, capacity: nat)
    : Option<(KernelModel.Mutation, Index)>
  {
    var required := Required(resident, keys - resident, capacity);
    var victims := FirstVictims(d, resident, required);
    if |victims| != required then None
    else Some((KernelModel.Mutation(true, Elements(victims)), PutAll(PopAll(d, victims), order)))
  }

  /** The additions, each once, in some order. */
  ghost predicate Enumerates(order: seq<string>, additions: set<string>) { NoRepeats(order) && Elements(order) == additions }

  lemma {:induction false} VictimsAreOldest(d: Index, resident: set<string>, n: nat)
    requires Distinct(d) && KeysIn(d) <= resident
    ensures var v := FirstVictims(d, resident, n);
            && NoRepeats(v) && Elements(v) <= KeysIn(d) && |v| == (if n <= |d| then n else |d|)
  {
    if d != [] && n > 0 {
      VictimsAreOldest(d[1..], resident, n - 1);
      var rest := FirstVictims(d[1..], resident, n - 1);
      HasIsIn(d[1..], d[0].0);
      var v := FirstVictims(d, resident, n);
      assert v == [d[0].0] + rest && v[1..] == rest && Elements(v) == {d[0].0} + Elements(rest);
    }
  }

  lemma {:induction false} IndexSize(d: Index)
    requires Distinct(d)
    ensures |KeysIn(d)| == |d|
  {
    if d != [] {
      IndexSize(d[1..]);
      HasIsIn(d[1..], d[0].0);
    }
  }

  lemma {:induction false} PopMirrors(d: Index, k: string)
    requires Distinct(d)
    ensures Distinct(Pop(d, k)) && KeysIn(Pop(d, k)) == KeysIn(d) - {k}
  {
    PopKeys(d, k);
    forall x ensures x in KeysIn(Pop(d, k)) <==> x in KeysIn(d) - {k} {
      HasIsIn(Pop(d, k), x);
      HasIsIn(d, x);
    }
  }

  lemma {:induction false} PutMirrors(d: Index, k: string)
    requires Distinct(d)
    ensures Distinct(Put(d, k, ())) && KeysIn(Put(d, k, ())) == KeysIn(d) + {k}
  {
    PutKeys(d, k, ());
    forall x ensures x in KeysIn(Put(d, k, ())) <==> x in KeysIn(d) + {k} {
      HasIsIn(Put(d, k, ()), x);
      HasIsIn(d, x);
    }
  }

  lemma {:induction false} PopAllMirrors(d: Index, ks: seq<string>)
    requires Distinct(d)
    ensures Mirrors(PopAll(d, ks), KeysIn(d) - Elements(ks))
    decreases |ks|
  {
    if ks != [] {
      var front, k := ks[..|ks| - 1], ks[|ks| - 1];
      PopAllMirrors(d, front);
      PopMirrors(PopAll(d, front), k);
      assert ks == front + [k] && Elements(ks) == Elements(front) + {k};
    }
  }

  lemma {:induction false} PutAllMirrors(d: Index, ks: seq<string>)
    requires Distinct(d)
    ensures Mirrors(PutAll(d, ks), KeysIn(d) + Elements(ks))
    decreases |ks|
  {
    if ks != [] {
      var front, k := ks[..|ks| - 1], ks[|ks| - 1];
      PutAllMirrors(d, front);
      PutMirrors(PutAll(d, front), k);
      assert ks == front + [k] && Elements(ks) == Elements(front) + {k};
    }
  }

  /** A hit changes the order of the index, not its keys. */
  lemma HitKeepsMirror(d: Index, resident: set<string>, k: string)
    requires Mirrors(d, resident)
    ensures Mirrors(MovedToEnd(d, k), resident)
  {
    if Has(d, k) {
      HasIsIn(d, k);
      PopMirrors(d, k);
      HasIsIn(Pop(d, k), k);
      PutAbsent(Pop(d, k), k, ());
      PutMirrors(Pop(d, k), k);
    }
  }

  /** With an exact index the policy names its victims unless the new keys alone overflow
      the capacity. */
  lemma LruMutationChooses(d: Index, resident: set<string>, keys: set<string>, order: seq<string>, capacity: nat)
    requires Mirrors(d, resident) && |resident| <= capacity
    ensures LruMutation(d, resident, keys, order, capacity).Some? <==> |keys - resident| <= capacity
  {
    VictimsAreOldest(d, resident, Required(resident, keys - resident, capacity));
    IndexSize(d);
  }

  /** What the index becomes, and how many victims there are. */
  lemma LruMutationIs(d: Index, resident: set<string>, keys: set<string>, order: seq<string>, capacity: nat)
    requires Mirrors(d, resident) && Enumerates(order, keys - resident)
    requires LruMutation(d, resident, keys, order, capacity).Some?
    ensures var (m, next) := LruMutation(d, resident, keys, order, capacity).value;
            && m.admit && m.evictKeys <= resident
            && |m.evictKeys| == Required(resident, keys - resident, capacity)
            && Mirrors(next, (resident - m.evictKeys) + (keys - resident))
  {
    var victims := FirstVictims(d, resident, Required(resident, keys - resident, capacity));
    VictimsAreOldest(d, resident, Required(resident, keys - resident, capacity));
    NoRepeatsCount(victims);
    PopAllMirrors(d, victims);
    PutAllMirrors(PopAll(d, victims), order);
  }

  /** The kernel accepts the mutation, and the index is again exactly the cache, if and only
      if no victim is one of the request's own keys. */
  lemma KernelAcceptsIffNoOwnVictim(c: KernelModel.Config, d: Index, resident: set<string>, keys: set<string>, order: seq<string>)
    requires Mirrors(d, resident) && |resident| <= c.cacheCapacity && Enumerates(order, keys - resident)
    requires LruMutation(d, resident, keys, order, c.cacheCapacity).Some?
    ensures var (m, next) := LruMutation(d, resident, keys, order, c.cacheCapacity).value;
            && (KernelModel.Mutated(c, resident, keys, m).Ok? <==> m.evictKeys !! keys)
            && (KernelModel.Mutated(c, resident, keys, m).Ok? ==>
                  Mirrors(next, KernelModel.Mutated(c, resident, keys, m).value.0))
  {
    hide LruMutation; hide Mirrors; hide Enumerates; hide KernelModel.Mutated;
    LruMutationIs(d, resident, keys, order, c.cacheCapacity);
    var m := LruMutation(d, resident, keys, order, c.cacheCapacity).value.0;
    Sizes(resident, keys, m.evictKeys);
    MutationIs(c, resident, keys, m);
    SameUnion(resident, keys, m.evictKeys);
  }

  lemma MutationIs(c: KernelModel.Config, resident: set<string>, keys: set<string>, m: KernelModel.Mutation)
    requires m.admit && m.evictKeys <= resident
    ensures var kept := resident - m.evictKeys;
            && (KernelModel.Mutated(c, resident, keys, m).Ok? <==> |kept| + |keys - kept| <= c.cacheCapacity)
            && (KernelModel.Mutated(c, resident, keys, m).Ok? ==> KernelModel.Mutated(c, resident, keys, m).value.0 == kept + keys)
  {
  }

  lemma SameUnion(resident: set<string>, keys: set<string>, victims: set<string>)
    requires victims <= resident
    ensures victims !! keys ==> (resident - victims) + keys == (resident - victims) + (keys - resident)
  {
  }

  lemma Sizes(resident: set<string>, keys: set<string>, victims: set<string>)
    requires victims <= resident
    ensures |resident - victims| == |resident| - |victims|
    ensures |keys - (resident - victims)| == |keys - resident| + |victims * keys|
    ensures victims !! keys <==> |victims * keys| == 0
  {
    assert resident == (resident - victims) + victims;
    assert keys - (resident - victims) == (keys - resident) + victims * keys;
  }

  /** An own-key victim: a node of one entry holds the request's first key; making room for
      the second evicts the first, and the kernel refuses. */
  lemma OwnKeyVictimIsRefused(c: KernelModel.Config)
    requires c.cacheCapacity == 1
    ensures var d: Index := [("a", ())];
            var r := LruMutation(d, {"a"}, {"a", "b"}, ["b"], 1);
            && Mirrors(d, {"a"}) && r.Some? && "a" in r.value.0.evictKeys
            && KernelModel.Mutated(c, {"a"}, {"a", "b"}, r.value.0) == KernelModel.Raised(KernelModel.OverCapacity)
  {
    var d: Index := [("a", ())];
    assert d[1..] == [] && {"a", "b"} - {"a"} == {"b"};
    assert FirstVictims(d, {"a"}, 1) == ["a"] + FirstVictims([], {"a"}, 0) == ["a"];
    assert {"a"} - Elements(["a"]) == {} && |{"a", "b"} - {}| == 2 by { assert {"a", "b"} - {} == {"a"} + {"b"}; }
  }

  /** When the kernel skips the mutation of an attempt that made nothing reusable, the index
      still mirrors the cache only if the mutation was empty. */
  lemma SkippedMutationDiverges(d: Index, resident: set<string>, keys: set<string>, order: seq<string>, capacity: nat)
    requires Mirrors(d, resident) && Enumerates(order, keys - resident)
    requires LruMutation(d, resident, keys, order, capacity).Some?
    ensures var (m, next) := LruMutation(d, resident, keys, order, capacity).value;
            Mirrors(next, resident) <==> m.evictKeys == {} && keys <= resident
  {
    LruMutationIs(d, resident, keys, order, capacity);
    var (m, next) := LruMutation(d, resident, keys, order, capacity).value;
    if Mirrors(next, resident) {
      assert (resident - m.evictKeys) + (keys - resident) == resident;
      assert m.evictKeys * (keys - resident) == {};
    }
  }

  // --- policy and kernel together ------------------------------------------

  /** A prefix hit, or a completion: the request's keys, the order the new ones are filed in,
      and whether the attempt made its prefill reusable. */
  datatype Turn = Hits(key: string) | Completes(keys: set<string>, order: seq<string>, reusable: bool)

  /** One node, as the policy's index and the kernel's cache tell it. */
  datatype Both = Both(index: Index, resident: set<string>)

  /** One turn of both; nothing when the policy or the kernel refuses.  The policy files its
      mutation before the kernel decides whether to apply it. */
  function After(c: KernelModel.Config, s: Both, t: Turn): Option<Both> {
    match t
    case Hits(k) => Some(s.(index := MovedToEnd(s.index, k)))
    case Completes(keys, order, reusable) =>
      var r := LruMutation(s.index, s.resident, keys, order, c.cacheCapacity);
      if r.None? then None
      else if !reusable then Some(s.(index := r.value.1))
      else
        var t := KernelModel.Mutated(c, s.resident, keys, r.value.0);
        if t.Ok? then Some(Both(r.value.1, t.value.0)) else None
  }

  /** The victims this turn would name. */
  function WouldEvict(c: KernelModel.Config, s: Both, keys: set<string>): seq<string> {
    FirstVictims(s.index, s.resident, Required(s.resident, keys - s.resident, c.cacheCapacity))
  }

  /** What has to hold before the turn: the new keys fit the capacity, no victim is one of the
      request's own keys, and an attempt that made nothing reusable brings no new key. */
  predicate Agreeable(c: KernelModel.Config, s: Both, t: Turn) {
    t.Completes? ==>
      && |t.keys - s.resident| <= c.cacheCapacity
      && (if t.reusable then Elements(WouldEvict(c, s, t.keys)) !! t.keys else t.keys <= s.resident)
  }

  ghost predicate InStep(c: KernelModel.Config, s: Both) {
    Mirrors(s.index, s.resident) && |s.resident| <= c.cacheCapacity
  }

  /** From an index that mirrors the cache, a turn is accepted and leaves it mirroring the cache
      exactly when the turn is agreeable. */
  lemma TurnMirrorsIffAgreeable(c: KernelModel.Config, s: Both, t: Turn)
    requires InStep(c, s) && (t.Completes? ==> Enumerates(t.order, t.keys - s.resident))
    ensures (After(c, s, t).Some? && Mirrors(After(c, s, t).value.index, After(c, s, t).value.resident))
            <==> Agreeable(c, s, t)
    ensures Agreeable(c, s, t) ==> InStep(c, After(c, s, t).value)
  {
    hide Mirrors; hide FirstVictims; hide KernelModel.Mutated;
    match t
    case Hits(k) => HitKeepsMirror(s.index, s.resident, k);
    case Completes(keys, order, reusable) =>
      LruMutationChooses(s.index, s.resident, keys, order, c.cacheCapacity);
      if |keys - s.resident| <= c.cacheCapacity {
        var r := LruMutation(s.index, s.resident, keys, order, c.cacheCapacity);
        assert r.value.0.evictKeys == Elements(WouldEvict(c, s, keys));
        if reusable {
          KernelAcceptsIffNoOwnVictim(c, s.index, s.resident, keys, order);
          MutationFits(c, s.resident, keys, r.value.0);
        } else {
          SkippedMutationDiverges(s.index, s.resident, keys, order, c.cacheCapacity);
          NothingToEvict(c, s, keys);
        }
      }
  }

  lemma MutationFits(c: KernelModel.Config, resident: set<string>, keys: set<string>, m: KernelModel.Mutation)
    requires m.admit
    ensures KernelModel.Mutated(c, resident, keys, m).Ok? ==>
              |KernelModel.Mutated(c, resident, keys, m).value.0| <= c.cacheCapacity
  {
    var kept := resident - m.evictKeys;
    assert kept + keys == kept + (keys - kept);
  }

  lemma NothingToEvict(c: KernelModel.Config, s: Both, keys: set<string>)
    requires |s.resident| <= c.cacheCapacity
    ensures keys <= s.resident ==> WouldEvict(c, s, keys) == []
  {
    assert keys <= s.resident ==> keys - s.resident == {};
  }

  /** The order each completion files its new keys in lists them, each once. */
  ghost predicate Filed(c: KernelModel.Config, s: Both, turns: seq<Turn>)
    decreases |turns|
  {
    turns == []
    || (&& (turns[0].Completes? ==> Enumerates(turns[0].order, turns[0].keys - s.resident))
        && (After(c, s, turns[0]).Some? ==> Filed(c, After(c, s, turns[0]).value, turns[1..])))
  }

  /** Every turn is agreeable in the state it meets. */
  ghost predicate AllAgreeable(c: KernelModel.Config, s: Both, turns: seq<Turn>)
    decreases |turns|
  {
    turns == []
    || (&& Agreeable(c, s, turns[0])
        && (After(c, s, turns[0]).Some? ==> AllAgreeable(c, After(c, s, turns[0]).value, turns[1..])))
  }

  /** No turn is refused, and after every one the index holds exactly the resident keys. */
  ghost predicate StaysInStep(c: KernelModel.Config, s: Both, turns: seq<Turn>)
    decreases |turns|
  {
    && InStep(c, s)
    && (turns != [] ==> After(c, s, turns[0]).Some? && StaysInStep(c, After(c, s, turns[0]).value, turns[1..]))
  }

  lemma {:induction false} RunMirrorsIffAgreeable(c: KernelModel.Config, s: Both, turns: seq<Turn>)
    requires InStep(c, s) && Filed(c, s, turns)
    ensures StaysInStep(c, s, turns) <==> AllAgreeable(c, s, turns)
    decreases |turns|
  {
    hide Agreeable; hide After; hide Enumerates; hide Mirrors;
    if turns != [] {
      TurnMirrorsIffAgreeable(c, s, turns[0]);
      if Agreeable(c, s, turns[0]) {
        RunMirrorsIffAgreeable(c, After(c, s, turns[0]).value, turns[1..]);
      }
    }
  }

  /** Over every run of an empty node: the kernel accepts each mutation and the index holds
      exactly the resident keys after each turn, if and only if every turn is agreeable. */
  lemma {:induction false} EveryRunMirrors(c: KernelModel.Config, turns: seq<Turn>)
    requires Filed(c, Both([], {}), turns)
    ensures StaysInStep(c, Both([], {}), turns) <==> AllAgreeable(c, Both([], {}), turns)
  {
    EmptyNodeInStep(c);
    RunMirrorsIffAgreeable(c, Both([], {}), turns);
  }

  lemma EmptyNodeInStep(c: KernelModel.Config)
    ensures InStep(c, Both([], {}))
  {
  }

  lemma {:induction false} FrontVictims(front: Index, back: Index, resident: set<string>, n: nat)
    requires n <= |front| && Distinct(front + back) && KeysIn(front + back) <= resident
    ensures FirstVictims(front + back, resident, n) == FirstVictims(front, resident, n)
    ensures Elements(FirstVictims(front, resident, n)) <= KeysIn(front)
  {
    if n == 0 {
    } else {
      assert (front + back)[1..] == front[1..] + back && (front + back)[0] == front[0];
      FrontVictims(front[1..], back, resident, n - 1);
      assert Elements(FirstVictims(front, resident, n))
             == {front[0].0} + Elements(FirstVictims(front[1..], resident, n - 1));
    }
  }

  lemma {:induction false} KeysConcat(front: Index, back: Index)
    ensures KeysIn(front + back) == KeysIn(front) + KeysIn(back)
    ensures Distinct(front + back) ==> Distinct(back) && Distinct(front) && KeysIn(front) !! KeysIn(back)
  {
    if front == [] {
      assert front + back == back;
    } else {
      assert (front + back)[1..] == front[1..] + back;
      KeysConcat(front[1..], back);
      HasIsIn(front[1..] + back, front[0].0);
      HasIsIn(front[1..], front[0].0);
    }
  }

  /** When the request's resident keys are the most recently used ones and the request fits
      the capacity, no victim is one of its own keys. */
  lemma {:induction false} RecentKeysAreNeverVictims(c: KernelModel.Config, front: Index, back: Index,
                                                     resident: set<string>, keys: set<string>)
    requires InStep(c, Both(front + back, resident)) && KeysIn(back) == keys * resident && |keys| <= c.cacheCapacity
    ensures Agreeable(c, Both(front + back, resident), Completes(keys, [], true))
  {
    KeysConcat(front, back);
    IndexSize(back);
    IndexSize(front + back);
    assert keys == (keys - resident) + keys * resident;
    FrontVictims(front, back, resident, Required(resident, keys - resident, c.cacheCapacity));
    assert KeysIn(front) * keys == {} by { assert KeysIn(front) <= resident; }
  }

  lemma {:induction false} PopMiddle(x: Index, k: string, y: Index)
    requires !Has(x, k)
    ensures Pop(x + [(k, ())] + y, k) == x + y && Has(x + [(k, ())] + y, k)
  {
    var d := x + [(k, ())] + y;
    if x == [] {
      assert d[1..] == y;
    } else {
      assert d[1..] == x[1..] + [(k, ())] + y;
      PopMiddle(x[1..], k, y);
    }
  }

  /** A hit makes its key the most recently used one; the others keep their order, and the cache is
      not touched. */
  lemma {:induction false} HitIsMostRecent(c: KernelModel.Config, x: Index, k: string, y: Index, resident: set<string>)
    requires !Has(x, k)
    ensures After(c, Both(x + [(k, ())] + y, resident), Hits(k)) == Some(Both(x + y + [(k, ())], resident))
  {
    PopMiddle(x, k, y);
  }

  function AfterHits(d: Index, ks: seq<string>): Index
    decreases |ks|
  {
    if ks == [] then d else MovedToEnd(AfterHits(d, ks[..|ks| - 1]), ks[|ks| - 1])
  }

  function Entries(ks: seq<string>): Index
    decreases |ks|
  {
    if ks == [] then [] else Entries(ks[..|ks| - 1]) + [(ks[|ks| - 1], ())]
  }

  lemma {:induction false} EntriesKeys(ks: seq<string>)
    ensures KeysIn(Entries(ks)) == Elements(ks)
    decreases |ks|
  {
    if ks != [] {
      var front, k := ks[..|ks| - 1], ks[|ks| - 1];
      EntriesKeys(front);
      assert ks == front + [k];
      KeysConcat(Entries(front), [(k, ())]);
      assert KeysIn([(k, ())]) == {k} + KeysIn([]);
      assert Elements(ks) == Elements(front) + {k};
    }
  }

  lemma SplitAtKey(d: Index, k: string) returns (x: Index, y: Index)
    requires Has(d, k)
    ensures d == x + [(k, ())] + y && !Has(x, k)
  {
    if d[0].0 == k {
      x, y := [], d[1..];
      var unit := d[0].1;
      assert unit == ();
      assert d[0] == (k, unit);
    } else {
      var a, b := SplitAtKey(d[1..], k);
      x, y := [d[0]] + a, b;
      assert x[1..] == a;
    }
  }

  lemma Regroup<T>(x: seq<T>, k: T, y: seq<T>, e: seq<T>)
    ensures x + [k] + y + e == x + [k] + (y + e)
    ensures x + (y + e) + [k] == (x + y) + (e + [k])
  {
  }

  /** One more hit of a key not hit before. */
  lemma {:induction false} HitBehindOthers(front: Index, e: Index, k: string) returns (rest: Index)
    requires Distinct(front + e) && Has(front, k)
    ensures MovedToEnd(front + e, k) == rest + (e + [(k, ())])
  {
    hide Pop; hide Has; hide Distinct;
    var x, y := SplitAtKey(front, k);
    Regroup(x, (k, ()), y, e);
    PopMiddle(x, k, y + e);
    rest := x + y;
  }

  lemma {:induction false} HasAcross(front: Index, e: Index, k: string)
    requires k in KeysIn(front + e) && k !in KeysIn(e)
    ensures Has(front, k)
  {
    KeysConcat(front, e);
    HasIsIn(front, k);
  }

  /** After a series of hits the keys hit are the most recent ones, in the order of the hits. */
  lemma {:induction false} HitsComeLast(d: Index, ks: seq<string>) returns (front: Index)
    requires Distinct(d) && NoRepeats(ks) && Elements(ks) <= KeysIn(d)
    ensures AfterHits(d, ks) == front + Entries(ks) && Mirrors(AfterHits(d, ks), KeysIn(d))
    decreases |ks|
  {
    hide KeysIn; hide Distinct; hide NoRepeats; hide MovedToEnd;
    if ks == [] {
      front := d;
      assert d + [] == d;
    } else {
      var before, k := ks[..|ks| - 1], ks[|ks| - 1];
      assert ks == before + [k];
      NoRepeatsConcat(before, [k]);
      assert k in Elements([k]) && k in Elements(ks);
      var earlier := HitsComeLast(d, before);
      EntriesKeys(before);
      HasAcross(earlier, Entries(before), k);
      HitKeepsMirror(earlier + Entries(before), KeysIn(d), k);
      front := HitBehindOthers(earlier, Entries(before), k);
    }
  }

  /** A request that hits its resident keys first never has to evict one of its own: if it fits the
      cache its completion is accepted and the index goes on mirroring the cache. */
  lemma {:induction false} HitsThenCompletion(c: KernelModel.Config, s: Both, keys: set<string>, hits: seq<string>,
                                              order: seq<string>)
    requires InStep(c, s) && NoRepeats(hits) && Elements(hits) == keys * s.resident && |keys| <= c.cacheCapacity
    requires Enumerates(order, keys - s.resident)
    ensures var later := s.(index := AfterHits(s.index, hits));
            var t := After(c, later, Completes(keys, order, true));
            t.Some? && InStep(c, t.value) && keys <= t.value.resident
  {
    hide LruMutation; hide FirstVictims; hide Enumerates; hide AfterHits; hide Entries;
    var front := HitsComeLast(s.index, hits);
    EntriesKeys(hits);
    var later := s.(index := AfterHits(s.index, hits));
    RecentKeysAreNeverVictims(c, front, Entries(hits), s.resident, keys);
    assert Agreeable(c, later, Completes(keys, order, true));
    TurnMirrorsIffAgreeable(c, later, Completes(keys, order, true));
    AcceptedKeysStay(c, later, keys, order);
  }

  lemma AcceptedKeysStay(c: KernelModel.Config, s: Both, keys: set<string>, order: seq<string>)
    ensures var t := After(c, s, Completes(keys, order, true)); t.Some? ==> keys <= t.value.resident
  {
    hide FirstVictims; hide PutAll; hide PopAll; hide Required;
  }

  /** The policy's index of one node, updated in place. */
  class NodeRecency {
    var lru: Index

    constructor ()
      ensures lru == []
    {
      lru := [];
    }

    method Hit(k: string)
      modifies this
      ensures lru == MovedToEnd(old(lru), k)
    {
      if Has(lru, k) { lru := Pop(lru, k) + [(k, ())]; }
    }

    /** The oldest resident keys of the index. */
    method OldestResident(resident: set<string>, required: nat) returns (victims: seq<string>)
      ensures victims == FirstVictims(lru, resident, required)
    {
      hide FirstVictims;
      victims := [];
      var i := 0;
      assert lru[0..] == lru;
      while i < |lru| && |victims| < required
        invariant i <= |lru| && |victims| <= required
        invariant FirstVictims(lru, resident, required) == victims + FirstVictims(lru[i..], resident, required - |victims|)
        decreases |lru| - i
      {
        VictimStep(lru, resident, required, i, victims);
        if lru[i].0 in resident { victims := victims + [lru[i].0]; }
        i := i + 1;
      }
      NoVictim(lru[i..], resident, required - |victims|);
    }

    /** LRU-mode `cache_mutation`: name the victims, drop them from the index, and append the
        new keys. */
    method CacheMutation(keys: set<string>, resident: set<string>, capacity: nat)
      returns (r: Option<KernelModel.Mutation>, ghost order: seq<string>)
      modifies this
      ensures Enumerates(order, keys - resident)
      ensures var t := LruMutation(old(lru), resident, keys, order, capacity);
              if t.Some? then r == Some(t.value.0) && lru == t.value.1 else r.None? && lru == old(lru)
    {
      hide FirstVictims; hide NoRepeats;
      var required := Required(resident, keys - resident, capacity);
      var victims := OldestResident(resident, required);
      var additions := Enumerate(keys - resident);
      order := additions;
      if |victims| != required { return None, order; }
      ghost var was := lru;
      for i := 0 to |victims|
        invariant lru == PopAll(was, victims[..i])
      {
        assert victims[..i + 1][..i] == victims[..i];
        lru := Pop(lru, victims[i]);
      }
      assert victims[..|victims|] == victims;
      ghost var popped := lru;
      for i := 0 to |additions|
        invariant lru == PutAll(popped, additions[..i])
      {
        assert additions[..i + 1][..i] == additions[..i];
        lru := Put(lru, additions[i], ());
      }
      assert additions[..|additions|] == additions;
      r := Some(KernelModel.Mutation(true, Elements(victims)));
    }
  }

  method Enumerate(ks: set<string>) returns (order: seq<string>)
    ensures Enumerates(order, ks)
  {
    order := [];
    var left := ks;
    while left != {}
      invariant left <= ks && Enumerates(order, ks - left)
      decreases left
    {
      var k :| k in left;
      assert k !in Elements(order);
      assert ([k] + order)[1..] == order && Elements([k] + order) == {k} + Elements(order);
      order := [k] + order;
      left := left - {k};
    }
  }

  lemma VictimStep(d: Index, resident: set<string>, required: nat, i: nat, victims: seq<string>)
    requires i < |d| && |victims| < required
    ensures victims + FirstVictims(d[i..], resident, required - |victims|)
            == if d[i].0 in resident then (victims + [d[i].0]) + FirstVictims(d[i + 1..], resident, required - |victims| - 1)
               else victims + FirstVictims(d[i + 1..], resident, required - |victims|)
  {
    assert d[i..][1..] == d[i + 1..] && d[i..][0] == d[i];
  }

  lemma {:induction false} NoVictim(d: Index, resident: set<string>, n: nat)
    ensures d == [] || n == 0 ==> FirstVictims(d, resident, n) == []
  {
  }
}
