/** `LocalSimulator._run_cache_only` (src/prefill_cache_sim/simulator.py:295-329): one pass
    over the requests, on cache objects chosen by a selector.
 */
module CacheOnlySimulator {
  import opened Lists
  import opened NodeCache
  import opened LocalNodeCaches
  import opened CacheReplay

  /** Look up, then place with the hit blocks pinned. */
  method Serve(node: LocalNodeCache, r: Request, sizes: seq<nat>) returns (hitBlocks: nat)
    requires |sizes| == |r.prefix|
    modifies node, node.policy
    ensures node.St() == Served(node.capacityBlocks, old(node.St()), r)
    ensures hitBlocks == HitCount(old(node.resident), r.prefix)
  {
    var lookup := node.Lookup(r.prefix, sizes);
    var _, _, _, _ := node.Place(r.prefix, r.at, Elements(r.prefix[..lookup.hitBlocks]));
    hitBlocks := lookup.hitBlocks;
  }

  /** Distinct nodes share neither cache nor policy object. */
  ghost predicate Separate(nodes: map<string, LocalNodeCache>) {
    forall m, n :: m in nodes && n in nodes && m != n ==> nodes[m] != nodes[n] && nodes[m].policy != nodes[n].policy
  }

  ghost function StatesOf(nodes: map<string, LocalNodeCache>): (states: map<string, CacheState>)
    reads set n | n in nodes :: nodes[n], set n | n in nodes :: nodes[n].policy
    ensures states.Keys == nodes.Keys
  {
    map n | n in nodes :: nodes[n].St()
  }

  ghost function ClusterOf(nodes: map<string, LocalNodeCache>): Cluster
    reads set n | n in nodes :: nodes[n], set n | n in nodes :: nodes[n].policy
  {
    Cluster(map n | n in nodes :: nodes[n].capacityBlocks, StatesOf(nodes))
  }

  /** Serving on one node leaves every other node alone. */
  method ServeOn(nodes: map<string, LocalNodeCache>, n: string, r: Request, sizes: seq<nat>) returns (hitBlocks: nat)
    requires n in nodes && Separate(nodes) && |sizes| == |r.prefix|
    modifies nodes[n], nodes[n].policy
    ensures StatesOf(nodes) == old(StatesOf(nodes))[n := Served(nodes[n].capacityBlocks, old(StatesOf(nodes))[n], r)]
    ensures hitBlocks == HitCount(old(StatesOf(nodes))[n].resident, r.prefix)
  {
    hide Served; hide HitCount;
    ghost var was := StatesOf(nodes);
    hitBlocks := Serve(nodes[n], r, sizes);
    assert StatesOf(nodes) == was[n := Served(nodes[n].capacityBlocks, was[n], r)];
  }

  lemma {:induction false} OneMoreTurn(c: Cluster, requests: seq<Request>, choices: seq<string>, i: nat)
    requires |requests| == |choices| && Selects(c, choices) && i < |requests|
    ensures var was := ClusterReplay(c, requests[..i], choices[..i]);
            && ClusterReplay(c, requests[..i + 1], choices[..i + 1])
               == was[choices[i] := Served(c.capacities[choices[i]], was[choices[i]], requests[i])]
            && ClusterHits(c, requests[..i + 1], choices[..i + 1])
               == ClusterHits(c, requests[..i], choices[..i]) + HitCount(was[choices[i]].resident, requests[i].prefix)
  {
    assert requests[..i + 1][..i] == requests[..i] && choices[..i + 1][..i] == choices[..i];
  }

  lemma {:induction false} NoTurnYet(c: Cluster, requests: seq<Request>, choices: seq<string>)
    requires |requests| == |choices| && Selects(c, choices)
    ensures ClusterReplay(c, requests[..0], choices[..0]) == c.nodes && ClusterHits(c, requests[..0], choices[..0]) == 0
  {
  }

  method RunCacheOnly(nodes: map<string, LocalNodeCache>, requests: seq<Request>, sizes: seq<seq<nat>>, choices: seq<string>)
    returns (hits: nat)
    requires |requests| == |choices| == |sizes| && (forall n :: n in choices ==> n in nodes) && Separate(nodes)
    requires forall i :: 0 <= i < |requests| ==> |sizes[i]| == |requests[i].prefix|
    modifies set n | n in nodes :: nodes[n], set n | n in nodes :: nodes[n].policy
    ensures hits == ClusterHits(old(ClusterOf(nodes)), requests, choices)
    ensures StatesOf(nodes) == ClusterReplay(old(ClusterOf(nodes)), requests, choices)
  {
    hide Served; hide ClusterReplay; hide ClusterHits; hide StatesOf;
    hits := 0;
    ghost var c := ClusterOf(nodes);
    NoTurnYet(c, requests, choices);
    for i := 0 to |requests|
      invariant hits == ClusterHits(c, requests[..i], choices[..i])
      invariant StatesOf(nodes) == ClusterReplay(c, requests[..i], choices[..i])
    {
      OneMoreTurn(c, requests, choices, i);
      var hit := ServeOn(nodes, choices[i], requests[i], sizes[i]);
      hits := hits + hit;
    }
    assert requests[..|requests|] == requests && choices[..|choices|] == choices;
  }
}
