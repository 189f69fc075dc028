/** Lazy immutable views over the kernel's mutable node caches
    (src/prefill_cache_sim/m12_kernel.py:234-314, 834-843, 1055-1069).
 */
module CacheSnapshots {
  import opened Lists
  import opened KernelModel

  /** The caches the kernel owns and mutates; the snapshot store only reads them. */
  class NodeCaches {
    var sets: map<string, set<string>>

    constructor (nodes: seq<string>)
      ensures sets == map n | n in nodes :: {}
    {
      sets := map n | n in nodes :: {};
    }
  }

  /** One frozen mapping handed to policies. */
  class NodeMap {
    var entries: map<string, set<string>>

    constructor (entries: map<string, set<string>>)
      ensures this.entries == entries
    {
      this.entries := entries;
    }
  }

  /** The keys some node holds. */
  function UnionOf(nodes: seq<string>, sets: map<string, set<string>>): set<string> {
    if nodes == [] then {}
    else
      var last := nodes[|nodes| - 1];
      UnionOf(nodes[..|nodes| - 1], sets) + (if last in sets then sets[last] else {})
  }

  lemma {:induction false} UnionMeans(nodes: seq<string>, sets: map<string, set<string>>, key: string)
    ensures key in UnionOf(nodes, sets) <==> exists n :: n in nodes && n in sets && key in sets[n]
  {
    if nodes != [] {
      var front, last := nodes[..|nodes| - 1], nodes[|nodes| - 1];
      UnionMeans(front, sets, key);
      assert forall n :: n in nodes <==> n in front || n == last;
    }
  }

  function TotalSize(nodes: seq<string>, sets: map<string, set<string>>): nat {
    if nodes == [] then 0
    else TotalSize(nodes[..|nodes| - 1], sets)
         + (if nodes[|nodes| - 1] in sets then |sets[nodes[|nodes| - 1]]| else 0)
  }

  /** What copying the dirty nodes costs. */
  function DirtySize(nodes: seq<string>, dirty: set<string>, sets: map<string, set<string>>): nat {
    if nodes == [] then 0
    else
      var last := nodes[|nodes| - 1];
      DirtySize(nodes[..|nodes| - 1], dirty, sets) + (if last in dirty && last in sets then |sets[last]| else 0)
  }

  /** The lazy union over one frozen mapping. */
  class CompletedKeysView {
    const mapping: NodeMap
    const nodes: seq<string>

    constructor (mapping: NodeMap, nodes: seq<string>)
      ensures this.mapping == mapping && this.nodes == nodes
    {
      this.mapping, this.nodes := mapping, nodes;
    }

    method Contains(key: string) returns (found: bool)
      requires forall n :: n in nodes ==> n in mapping.entries
      ensures found <==> exists n :: n in nodes && key in mapping.entries[n]
    {
      found := false;
      for i := 0 to |nodes|
        invariant found <==> exists n :: n in nodes[..i] && key in mapping.entries[n]
      {
        assert nodes[..i + 1] == nodes[..i] + [nodes[i]];
        found := found || key in mapping.entries[nodes[i]];
      }
      assert nodes[..|nodes|] == nodes;
    }

    /** The keys of one node that have not come out yet. */
    method Yield(values: set<string>, seen: set<string>) returns (more: seq<string>, visits: nat)
      ensures NoRepeats(more) && Elements(more) == values - seen
      ensures visits == |values|
    {
      hide NoRepeats; hide Elements;
      NothingListed<string>();
      more, visits := [], 0;
      var left := values;
      while left != {}
        invariant left <= values && visits + |left| == |values|
        invariant NoRepeats(more) && Elements(more) == values - left - seen
        decreases left
      {
        var key :| key in left;
        left := left - {key};
        visits := visits + 1;
        if key !in seen {
          assert key !in more by { assert key !in Elements(more); Listed(more, key); }
          NoRepeatsMore(more, key);
          more := more + [key];
        }
      }
    }

    /** Every key of the union comes out exactly once, however many nodes hold it. */
    method Iterate() returns (keys: seq<string>, visits: nat)
      requires forall n :: n in nodes ==> n in mapping.entries
      ensures NoRepeats(keys) && Elements(keys) == UnionOf(nodes, mapping.entries)
      ensures visits == TotalSize(nodes, mapping.entries)
    {
      hide NoRepeats; hide Elements;
      NothingListed<string>();
      keys, visits := [], 0;
      var seen := {};
      for i := 0 to |nodes|
        invariant NoRepeats(keys) && Elements(keys) == seen
        invariant seen == UnionOf(nodes[..i], mapping.entries)
        invariant visits == TotalSize(nodes[..i], mapping.entries)
      {
        assert nodes[..i + 1][..i] == nodes[..i];
        var more, n := Yield(mapping.entries[nodes[i]], seen);
        NoRepeatsConcat(keys, more);
        keys, visits := keys + more, visits + n;
        seen := seen + mapping.entries[nodes[i]];
      }
      assert nodes[..|nodes|] == nodes;
    }
  }

  class CacheSnapshotStore {
    const cache: NodeCaches
    const nodeOrder: seq<string>
    var mapping: NodeMap?
    var completed: CompletedKeysView?
    var dirtyNodes: set<string>
    var entryCopies: nat

    /** Whatever is not dirty has an up-to-date copy. */
    ghost predicate Valid()
      reads this, cache, mapping
    {
      && NoRepeats(nodeOrder) && cache.sets.Keys == (set n | n in nodeOrder) && dirtyNodes <= cache.sets.Keys
      && (mapping == null ==> dirtyNodes == cache.sets.Keys && completed == null)
      && (mapping != null ==>
            && mapping.entries.Keys == cache.sets.Keys
            && (forall n :: n in cache.sets && n !in dirtyNodes ==> mapping.entries[n] == cache.sets[n]))
      && (completed != null ==> dirtyNodes == {} && completed.mapping == mapping && completed.nodes == nodeOrder)
    }

    constructor (cache: NodeCaches, nodeOrder: seq<string>)
      requires NoRepeats(nodeOrder) && cache.sets.Keys == set n | n in nodeOrder
      ensures Valid() && this.cache == cache && this.nodeOrder == nodeOrder
    {
      this.cache, this.nodeOrder := cache, nodeOrder;
      mapping, completed, entryCopies := null, null, 0;
      dirtyNodes := set n | n in nodeOrder;
    }

    method Invalidate(node: string)
      modifies `dirtyNodes, `completed
      ensures dirtyNodes == old(dirtyNodes) + {node} && completed == null
    {
      dirtyNodes := dirtyNodes + {node};
      completed := null;
    }

    /** The view equals an eager copy of all node caches, at the cost of the dirty nodes
        only, and no mapping handed out earlier is written to. */
    method View() returns (m: NodeMap, keys: CompletedKeysView)
      requires Valid()
      modifies this
      ensures Valid() && m == mapping && keys == completed && dirtyNodes == {}
      ensures m.entries == cache.sets && keys.mapping == m && keys.nodes == nodeOrder
      ensures fresh(m) || m == old(mapping)
      ensures fresh(m) <==> old(mapping == null || dirtyNodes != {})
      ensures entryCopies == old(entryCopies) + DirtySize(nodeOrder, old(dirtyNodes), cache.sets)
    {
      if mapping == null || dirtyNodes != {} {
        var frozen := new NodeMap(if mapping == null then map[] else mapping.entries);
        Refresh(frozen);
        mapping := frozen;
        dirtyNodes := {};
      } else {
        NothingDirty(nodeOrder, cache.sets);
      }
      m := mapping;
      assert m.entries == cache.sets;
      if completed == null {
        completed := new CompletedKeysView(m, nodeOrder);
      }
      keys := completed;
    }

    /** Copy the dirty nodes into a new mapping. */
    method Refresh(frozen: NodeMap)
      requires Valid() && frozen != mapping
      requires frozen.entries == if mapping == null then map[] else mapping.entries
      modifies frozen, `entryCopies
      ensures frozen.entries == cache.sets
      ensures entryCopies == old(entryCopies) + DirtySize(nodeOrder, dirtyNodes, cache.sets)
    {
      hide DirtySize; hide NoRepeats;
      NoNodeYet(nodeOrder, dirtyNodes, cache.sets);
      for i := 0 to |nodeOrder|
        invariant frozen.entries.Keys <= cache.sets.Keys
        invariant forall j :: 0 <= j < i ==> nodeOrder[j] in frozen.entries
        invariant forall j :: 0 <= j < i ==> frozen.entries[nodeOrder[j]] == cache.sets[nodeOrder[j]]
        invariant forall j :: i <= j < |nodeOrder| && nodeOrder[j] !in dirtyNodes ==>
                                nodeOrder[j] in frozen.entries && frozen.entries[nodeOrder[j]] == cache.sets[nodeOrder[j]]
        invariant entryCopies == old(entryCopies) + DirtySize(nodeOrder[..i], dirtyNodes, cache.sets)
      {
        var node := nodeOrder[i];
        DirtyStep(nodeOrder, i, dirtyNodes, cache.sets);
        if node in dirtyNodes {
          entryCopies := entryCopies + |cache.sets[node]|;
          frozen.entries := frozen.entries[node := cache.sets[node]];
        }
      }
      assert nodeOrder[..|nodeOrder|] == nodeOrder;
      assert forall n :: n in cache.sets ==> n in nodeOrder;
    }

    static lemma {:induction false} DirtyStep(nodes: seq<string>, i: nat, dirty: set<string>,
                                              sets: map<string, set<string>>)
      requires i < |nodes| && nodes[i] in sets
      ensures DirtySize(nodes[..i + 1], dirty, sets)
              == DirtySize(nodes[..i], dirty, sets) + (if nodes[i] in dirty then |sets[nodes[i]]| else 0)
    {
      assert nodes[..i + 1][..i] == nodes[..i];
    }

    static lemma {:induction false} NoNodeYet(nodes: seq<string>, dirty: set<string>, sets: map<string, set<string>>)
      ensures DirtySize(nodes[..0], dirty, sets) == 0
    {
    }

    static lemma {:induction false} NothingDirty(nodes: seq<string>, sets: map<string, set<string>>)
      ensures DirtySize(nodes, {}, sets) == 0
    {
      if nodes != [] {
        NothingDirty(nodes[..|nodes| - 1], sets);
      }
    }

    /** `_apply_cache_mutation`: evict, then admit, in place. */
    method ApplyMutation(node: string, keys: set<string>, m: Mutation, c: Config) returns (r: Result<bool>)
      requires node in cache.sets
      modifies cache
      ensures var t := Mutated(c, old(cache.sets)[node], keys, m);
              if t.Ok? then r == Ok(t.value.1) && cache.sets == old(cache.sets)[node := t.value.0]
              else r == Raised(t.error)
    {
      var resident := cache.sets[node];
      if !(m.evictKeys <= resident) { return Raised(NotResident); }
      var kept := resident - m.evictKeys;
      cache.sets := cache.sets[node := kept];
      var changed := m.evictKeys != {};
      if m.admit {
        var missing := keys - kept;
        if |kept| + |missing| > c.cacheCapacity { return Raised(OverCapacity); }
        AdmitsAll(kept, keys);
        cache.sets := cache.sets[node := kept + missing];
        assert cache.sets == old(cache.sets)[node := kept + missing];
        changed := changed || missing != {};
      }
      r := Ok(changed);
    }

    static lemma AdmitsAll(kept: set<string>, keys: set<string>)
      ensures kept + (keys - kept) == kept + keys
    {
    }

    /** Completion: mutate the attempt's node cache and invalidate the node exactly when the
        mutation reports a change.  A refused mutation ends the run. */
    method Complete(node: string, keys: set<string>, m: Mutation, c: Config) returns (r: Result<()>)
      requires Valid() && node in cache.sets
      modifies `dirtyNodes, `completed, cache
      ensures var t := Mutated(c, old(cache.sets)[node], keys, m);
              if t.Ok? then r.Ok? && Valid() && cache.sets == old(cache.sets)[node := t.value.0]
              else r == Raised(t.error)
      ensures r.Ok? ==> dirtyNodes == old(dirtyNodes) + (if Mutated(c, old(cache.sets)[node], keys, m).value.1
                                                         then {node} else {})
    {
      hide Mutated;
      ghost var before := cache.sets[node];
      var changed := ApplyMutation(node, keys, m, c);
      if changed.Raised? { return Raised(changed.error); }
      ChangesAreReported(c, before, keys, m);
      if changed.value { Invalidate(node); }
      r := Ok(());
    }
  }

  /** The two views of one completion: the hook that chooses the mutation sees the caches
      before it, the retry hook sees them after it, and the first view has not changed. */
  method CompletionViews(store: CacheSnapshotStore, node: string, keys: set<string>, m: Mutation, c: Config)
    returns (before: NodeMap, after: NodeMap, r: Result<()>)
    requires store.Valid() && node in store.cache.sets
    modifies store, store.cache
    ensures before.entries == old(store.cache.sets)
    ensures r.Ok? ==> store.Valid() && after.entries == store.cache.sets
                      && Mutated(c, old(store.cache.sets)[node], keys, m).Ok?
                      && after.entries == before.entries[node := Mutated(c, before.entries[node], keys, m).value.0]
  {
    hide Mutated;
    var union: CompletedKeysView;
    before, union := store.View();
    after := before;
    r := store.Complete(node, keys, m, c);
    if r.Ok? { after, union := store.View(); }
  }

  /** Copying costs the size of each dirty node, once for every time it is listed: nothing when none is
      dirty, everything when all are. */
  lemma {:induction false} CopyingCosts(nodes: seq<string>, dirty: set<string>, sets: map<string, set<string>>)
    requires forall n :: n in nodes ==> n in sets
    ensures DirtySize(nodes, {}, sets) == 0 && DirtySize(nodes, sets.Keys, sets) == TotalSize(nodes, sets)
    ensures DirtySize(nodes, dirty, sets) <= TotalSize(nodes, sets)
    ensures forall n :: n in nodes && n in dirty ==> |sets[n]| <= DirtySize(nodes, dirty, sets)
    decreases |nodes|
  {
    if nodes != [] {
      var front, last := nodes[..|nodes| - 1], nodes[|nodes| - 1];
      assert nodes == front + [last];
      CopyingCosts(front, dirty, sets);
    }
  }

  /** Walking the union visits every key of every node: at least the union, and exactly that when no
      two nodes share a key. */
  lemma {:induction false} VisitsCoverUnion(nodes: seq<string>, sets: map<string, set<string>>)
    requires forall n :: n in nodes ==> n in sets
    ensures |UnionOf(nodes, sets)| <= TotalSize(nodes, sets)
    ensures (forall i, j :: 0 <= i < j < |nodes| ==> sets[nodes[i]] !! sets[nodes[j]]) ==>
              |UnionOf(nodes, sets)| == TotalSize(nodes, sets)
    decreases |nodes|
  {
    if nodes != [] {
      var front, last := nodes[..|nodes| - 1], nodes[|nodes| - 1];
      assert forall i :: 0 <= i < |front| ==> front[i] == nodes[i];
      VisitsCoverUnion(front, sets);
      UnionSize(UnionOf(front, sets), sets[last]);
      if forall i, j :: 0 <= i < j < |nodes| ==> sets[nodes[i]] !! sets[nodes[j]] {
        forall k | k in UnionOf(front, sets) ensures k !in sets[last] {
          UnionMeans(front, sets, k);
          var n :| n in front && n in sets && k in sets[n];
          var i :| 0 <= i < |front| && front[i] == n;
          assert sets[nodes[i]] !! sets[nodes[|nodes| - 1]];
        }
      }
    }
  }

  lemma UnionSize(a: set<string>, b: set<string>)
    ensures |a + b| <= |a| + |b| && (a !! b ==> |a + b| == |a| + |b|)
  {
    assert a + b == a + (b - a) && b == (b - a) + b * a;
  }

  /** The change flag never misses a change. */
  lemma ChangesAreReported(c: Config, resident: set<string>, keys: set<string>, m: Mutation)
    requires Mutated(c, resident, keys, m).Ok?
    ensures Mutated(c, resident, keys, m).value.0 != resident ==> Mutated(c, resident, keys, m).value.1
    ensures Mutated(c, resident, keys, m).value.1 ==>
              Mutated(c, resident, keys, m).value.0 != resident || m.evictKeys != {}
    ensures m.evictKeys != {} ==> Mutated(c, resident, keys, m).value.1
  {
    var kept := resident - m.evictKeys;
    if m.evictKeys == {} {
      assert kept == resident;
      if keys - kept == {} { assert kept + keys == resident; }
    }
  }
}
