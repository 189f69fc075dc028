/** One node's block cache (src/prefill_cache_sim/cache.py): prefix lookups, placement with
    pins, and the historical residency index.
 */
module NodeCache {
  import opened Lists
  import opened EvictionPolicies
  import opened ResidencyHistory

  datatype CacheState = CacheState(
    policy: Policy,
    resident: set<Block>,
    history: map<Block, seq<Interval>>,
    accesses: map<Block, nat>,
    evictionRegret: nat,
    oneHitPollution: nat,
    log: seq<Change>)

  function IntervalsOf(history: map<Block, seq<Interval>>, b: Block): seq<Interval> {
    if b in history then history[b] else []
  }

  function AccessesOf(accesses: map<Block, nat>, b: Block): nat {
    if b in accesses then accesses[b] else 0
  }

  /** How many leading blocks of `prefix` are resident. */
  function HitCount(resident: set<Block>, prefix: seq<Block>): (n: nat)
    ensures n <= |prefix| && forall i :: 0 <= i < n ==> prefix[i] in resident
    ensures n < |prefix| ==> prefix[n] !in resident
  {
    if prefix == [] || prefix[0] !in resident then 0 else 1 + HitCount(resident, prefix[1..])
  }

  lemma {:induction false} HitCountIs(resident: set<Block>, prefix: seq<Block>, n: nat)
    requires n <= |prefix| && forall i :: 0 <= i < n ==> prefix[i] in resident
    requires n < |prefix| ==> prefix[n] !in resident
    ensures HitCount(resident, prefix) == n
  {
  }

  // --- lookups --------------------------------------------------------------

  function Touched(s: CacheState, b: Block): CacheState {
    s.(policy := OnLookup(s.policy, b), accesses := s.accesses[b := AccessesOf(s.accesses, b) + 1])
  }

  function TouchAll(s: CacheState, blocks: seq<Block>): CacheState
    decreases |blocks|
  {
    if blocks == [] then s else Touched(TouchAll(s, blocks[..|blocks| - 1]), blocks[|blocks| - 1])
  }

  /** The block was resident once and is not any more. */
  predicate WasDropped(history: map<Block, seq<Interval>>, b: Block) {
    var intervals := IntervalsOf(history, b);
    intervals != [] && intervals[|intervals| - 1].end.Some?
  }

  function LookedUp(s: CacheState, prefix: seq<Block>): CacheState {
    var n := HitCount(s.resident, prefix);
    var t := TouchAll(s, prefix[..n]);
    if n < |prefix| && WasDropped(s.history, prefix[n]) then t.(evictionRegret := t.evictionRegret + 1) else t
  }

  function CountResident(resident: set<Block>, blocks: seq<Block>): nat {
    if blocks == [] then 0
    else CountResident(resident, blocks[..|blocks| - 1]) + (if blocks[|blocks| - 1] in resident then 1 else 0)
  }

  function SumOf(sizes: seq<nat>): nat {
    if sizes == [] then 0 else SumOf(sizes[..|sizes| - 1]) + sizes[|sizes| - 1]
  }

  datatype Lookup = Lookup(hitBlocks: nat, hitTokens: nat, missed: seq<Block>, stranded: nat)

  function LookupOf(s: CacheState, prefix: seq<Block>, sizes: seq<nat>): Lookup
    requires |prefix| == |sizes|
  {
    var n := HitCount(s.resident, prefix);
    Lookup(n, SumOf(sizes[..n]), prefix[n..],
           if n < |prefix| then CountResident(s.resident, prefix[n + 1..]) else 0)
  }

  // --- placement ------------------------------------------------------------

  function Evicted(s: CacheState, v: Block, at: real): CacheState {
    s.(oneHitPollution := s.oneHitPollution + (if AccessesOf(s.accesses, v) <= 1 then 1 else 0),
       resident := s.resident - {v},
       history := if v in s.history then s.history[v := Closed(s.history[v], at)] else s.history,
       policy := OnRemove(s.policy, v),
       accesses := s.accesses - {v},
       log := s.log + [Dropped(v, at)])
  }

  function EvictAll(s: CacheState, victims: seq<Block>, at: real): CacheState
    decreases |victims|
  {
    if victims == [] then s else Evicted(EvictAll(s, victims[..|victims| - 1], at), victims[|victims| - 1], at)
  }

  function Inserted(s: CacheState, b: Block, at: real): CacheState {
    s.(resident := s.resident + {b},
       history := s.history[b := Opened(IntervalsOf(s.history, b), at)],
       policy := OnInsert(s.policy, b),
       accesses := s.accesses[b := 0],
       log := s.log + [Added(b, at)])
  }

  /** The state of a placement: the cache, and what this request has done so far. */
  datatype Placing = Placing(
    cache: CacheState,
    mine: set<Block>,
    inserted: nat,
    evicted: nat,
    admissionRejected: nat,
    capacityRejected: nat)

  function PlaceBlock(capacity: nat, p: Placing, b: Block, at: real, pinned: set<Block>): Placing {
    var s := p.cache;
    if b in s.resident then p.(cache := s.(policy := OnLookup(s.policy, b)))
    else if !Admits(s.policy, b) then
      p.(cache := s.(policy := OnAdmit(s.policy, b)), admissionRejected := p.admissionRejected + 1)
    else
      var admitted := s.(policy := OnAdmit(s.policy, b));
      var needed := if |s.resident| + 1 > capacity then |s.resident| + 1 - capacity else 0;
      var victims := VictimsOf(admitted.policy, needed, s.resident, pinned + p.mine);
      if |victims| < needed then p.(cache := admitted, capacityRejected := p.capacityRejected + 1)
      else
        p.(cache := Inserted(EvictAll(admitted, victims, at), b, at),
           mine := p.mine + {b}, inserted := p.inserted + 1, evicted := p.evicted + |victims|)
  }

  function PlaceAll(capacity: nat, s: CacheState, prefix: seq<Block>, at: real, pinned: set<Block>): Placing
    decreases |prefix|
  {
    if prefix == [] then Placing(s, {}, 0, 0, 0, 0)
    else PlaceBlock(capacity, PlaceAll(capacity, s, prefix[..|prefix| - 1], at, pinned), prefix[|prefix| - 1], at, pinned)
  }

  function Placed(capacity: nat, s: CacheState, prefix: seq<Block>, at: real, pinned: set<Block>): CacheState {
    PlaceAll(capacity, s, prefix, at, pinned).cache
  }

  // --- the invariant --------------------------------------------------------

  ghost predicate TellsAll(history: map<Block, seq<Interval>>, log: seq<Change>, now: real) {
    forall b :: Tells(IntervalsOf(history, b), log, now, b)
  }

  /** The policy tracks exactly the resident blocks, and the history tells the residency of
      every block at every time. */
  ghost predicate Good(s: CacheState, now: real) {
    && Sound(s.policy) && Tracked(s.policy) == s.resident
    && Final(s.log) == s.resident && LogBefore(s.log, now) && TellsAll(s.history, s.log, now)
  }

  lemma TimePasses(s: CacheState, now: real, at: real)
    requires Good(s, now) && now <= at
    ensures Good(s, at)
  {
    forall b ensures Tells(IntervalsOf(s.history, b), s.log, at, b) {
      assert Tells(IntervalsOf(s.history, b), s.log, now, b);
    }
  }

  lemma EvictedGood(s: CacheState, v: Block, at: real)
    requires Good(s, at) && v in s.resident
    ensures Good(Evicted(s, v, at), at)
  {
    hide Sound; hide Tracked; hide OnRemove; hide Tells;
    RemoveKeeps(s.policy, v);
    OneMore(s.log, Dropped(v, at), at);
    var t := Evicted(s, v, at);
    assert LogBefore(t.log, at);
    forall b ensures Tells(IntervalsOf(t.history, b), t.log, at, b) {
      assert Tells(IntervalsOf(s.history, b), s.log, at, b);
      if b == v {
        ClosingTells(IntervalsOf(s.history, b), s.log, at, b, at);
      } else {
        OthersTell(IntervalsOf(s.history, b), s.log, at, b, Dropped(v, at));
      }
    }
  }

  lemma InsertedGood(s: CacheState, b: Block, at: real)
    requires Good(s, at) && b !in s.resident
    ensures Good(Inserted(s, b, at), at)
  {
    hide Sound; hide Tracked; hide OnInsert; hide Tells;
    InsertKeeps(s.policy, b);
    OneMore(s.log, Added(b, at), at);
    var t := Inserted(s, b, at);
    assert LogBefore(t.log, at);
    forall x ensures Tells(IntervalsOf(t.history, x), t.log, at, x) {
      assert Tells(IntervalsOf(s.history, x), s.log, at, x);
      if x == b {
        OpeningTells(IntervalsOf(s.history, b), s.log, at, b, at);
      } else {
        OthersTell(IntervalsOf(s.history, x), s.log, at, x, Added(b, at));
      }
    }
  }

  lemma {:induction false} EvictAllGood(s: CacheState, victims: seq<Block>, at: real)
    requires Good(s, at) && NoRepeats(victims) && forall v :: v in victims ==> v in s.resident
    ensures var t := EvictAll(s, victims, at);
            Good(t, at) && t.resident == s.resident - Elements(victims)
    decreases |victims|
  {
    hide Good; hide Evicted;
    if victims != [] {
      var front, v := victims[..|victims| - 1], victims[|victims| - 1];
      assert victims == front + [v];
      NoRepeatsConcat(front, [v]);
      EvictAllGood(s, front, at);
      var t := EvictAll(s, front, at);
      assert v !in Elements(front);
      EvictedGood(t, v, at);
      EvictedResident(t, v, at);
    }
  }

  lemma EvictedResident(s: CacheState, v: Block, at: real)
    ensures Evicted(s, v, at).resident == s.resident - {v}
  {
  }

  /** What a placement keeps: the capacity, the invariant, every pinned block and every
      block this request has inserted; and each block is accounted for once. */
  ghost predicate PlacesWell(capacity: nat, s: CacheState, p: Placing, at: real, pinned: set<Block>) {
    && Good(p.cache, at) && |p.cache.resident| <= capacity
    && pinned * s.resident <= p.cache.resident && p.mine <= p.cache.resident
    && |p.cache.resident| == |s.resident| + p.inserted - p.evicted
  }

  lemma PlaceBlockKeeps(capacity: nat, s: CacheState, p: Placing, b: Block, at: real, pinned: set<Block>)
    requires PlacesWell(capacity, s, p, at, pinned)
    ensures PlacesWell(capacity, s, PlaceBlock(capacity, p, b, at, pinned), at, pinned)
  {
    hide Good; hide Sound; hide Tracked; hide VictimsOf; hide EvictAll; hide Inserted; hide OnLookup; hide OnAdmit;
    var c := p.cache;
    if b in c.resident {
      PolicyStepGood(c, b, at);
    } else {
      PolicyStepGood(c, b, at);
      var admitted := c.(policy := OnAdmit(c.policy, b));
      if Admits(c.policy, b) {
        var needed := if |c.resident| + 1 > capacity then |c.resident| + 1 - capacity else 0;
        var victims := VictimsOf(admitted.policy, needed, c.resident, pinned + p.mine);
        if |victims| >= needed {
          VictimsKeep(capacity, admitted, needed, pinned + p.mine, at);
          InsertKeepsCount(capacity, EvictAll(admitted, victims, at), b, at);
        }
      }
    }
  }

  lemma PolicyStepGood(s: CacheState, b: Block, at: real)
    requires Good(s, at)
    ensures Good(s.(policy := OnLookup(s.policy, b)), at) && Good(s.(policy := OnAdmit(s.policy, b)), at)
  {
    hide Sound; hide Tracked; hide TellsAll;
    LookupKeeps(s.policy, b);
    AdmitKeeps(s.policy, b);
  }

  lemma {:induction false} VictimsKeep(capacity: nat, s: CacheState, needed: nat, kept: set<Block>, at: real)
    requires Good(s, at) && |s.resident| <= capacity
    requires needed == (if |s.resident| + 1 > capacity then |s.resident| + 1 - capacity else 0)
    requires |VictimsOf(s.policy, needed, s.resident, kept)| >= needed
    ensures var victims := VictimsOf(s.policy, needed, s.resident, kept);
            var t := EvictAll(s, victims, at);
            && Good(t, at) && kept * s.resident <= t.resident <= s.resident
            && |t.resident| + |victims| == |s.resident| && |t.resident| < capacity
  {
    hide Sound; hide Tracked; hide TellsAll;
    var victims := VictimsOf(s.policy, needed, s.resident, kept);
    VictimsAreEligible(s.policy, needed, s.resident, kept);
    EvictAllGood(s, victims, at);
    NoRepeatsCount(victims);
    assert s.resident == (s.resident - Elements(victims)) + Elements(victims);
  }

  lemma InsertKeepsCount(capacity: nat, s: CacheState, b: Block, at: real)
    requires Good(s, at) && b !in s.resident && |s.resident| < capacity
    ensures Good(Inserted(s, b, at), at) && Inserted(s, b, at).resident == s.resident + {b}
    ensures |Inserted(s, b, at).resident| == |s.resident| + 1 <= capacity
  {
    InsertedGood(s, b, at);
  }

  /** A placement never exceeds capacity and never drops a pinned block. */
  lemma {:induction false} PlaceKeeps(capacity: nat, s: CacheState, prefix: seq<Block>, at: real, pinned: set<Block>)
    requires Good(s, at) && |s.resident| <= capacity
    ensures PlacesWell(capacity, s, PlaceAll(capacity, s, prefix, at, pinned), at, pinned)
    decreases |prefix|
  {
    hide Good; hide PlaceBlock;
    if prefix != [] {
      PlaceKeeps(capacity, s, prefix[..|prefix| - 1], at, pinned);
      PlaceBlockKeeps(capacity, s, PlaceAll(capacity, s, prefix[..|prefix| - 1], at, pinned), prefix[|prefix| - 1], at,
                      pinned);
    }
  }

  lemma {:induction false} TouchKeeps(s: CacheState, blocks: seq<Block>, now: real)
    requires Good(s, now)
    ensures var t := TouchAll(s, blocks); Good(t, now) && t.resident == s.resident && t.history == s.history && t.log == s.log
    decreases |blocks|
  {
    hide Sound; hide Tracked; hide TellsAll;
    if blocks != [] {
      var front, b := blocks[..|blocks| - 1], blocks[|blocks| - 1];
      TouchKeeps(s, front, now);
      LookupKeeps(TouchAll(s, front).policy, b);
    }
  }

  lemma LookupKeepsGood(s: CacheState, prefix: seq<Block>, now: real)
    requires Good(s, now)
    ensures var t := LookedUp(s, prefix); Good(t, now) && t.resident == s.resident && t.history == s.history && t.log == s.log
  {
    hide Sound; hide Tracked; hide TellsAll; hide TouchAll;
    TouchKeeps(s, prefix[..HitCount(s.resident, prefix)], now);
  }

  // --- historical previews --------------------------------------------------

  /** `preview_at`: leading blocks covered at the observation time. */
  function HitCountAt(history: map<Block, seq<Interval>>, prefix: seq<Block>, t: real): (n: nat)
    ensures n <= |prefix|
  {
    if prefix == [] || !Covers(IntervalsOf(history, prefix[0]), t) then 0
    else 1 + HitCountAt(history, prefix[1..], t)
  }

  lemma {:induction false} HistoryTells(s: CacheState, now: real, prefix: seq<Block>, t: real)
    requires Good(s, now)
    ensures HitCountAt(s.history, prefix, t) == HitCount(ResidentAt(s.log, t), prefix)
  {
    hide Sound; hide Tracked; hide Shaped;
    if prefix != [] {
      assert Tells(IntervalsOf(s.history, prefix[0]), s.log, now, prefix[0]);
      assert Agrees(IntervalsOf(s.history, prefix[0]), s.log, prefix[0], t);
      HistoryTells(s, now, prefix[1..], t);
    }
  }

  datatype Op = DoLookup(prefix: seq<Block>, at: real) | DoPlace(prefix: seq<Block>, at: real, pinned: set<Block>)

  function Apply(capacity: nat, s: CacheState, op: Op): CacheState {
    if op.DoLookup? then LookedUp(s, op.prefix) else Placed(capacity, s, op.prefix, op.at, op.pinned)
  }

  function Run(capacity: nat, s: CacheState, ops: seq<Op>): CacheState
    decreases |ops|
  {
    if ops == [] then s else Apply(capacity, Run(capacity, s, ops[..|ops| - 1]), ops[|ops| - 1])
  }

  ghost predicate InTime(ops: seq<Op>) {
    forall i, j :: 0 <= i <= j < |ops| ==> ops[i].at <= ops[j].at
  }

  function Fresh(policy: Policy): CacheState { CacheState(policy, {}, map[], map[], 0, 0, []) }

  lemma FreshIsGood(policy: Policy, now: real)
    requires Sound(policy) && Tracked(policy) == {}
    ensures Good(Fresh(policy), now)
  {
    forall b ensures Tells([], [], now, b) {
      assert forall t :: Agrees([], [], b, t);
    }
  }

  /** Every run with non-decreasing times stays good and within capacity. */
  lemma {:induction false} RunKeeps(capacity: nat, policy: Policy, ops: seq<Op>, now: real)
    requires Sound(policy) && Tracked(policy) == {} && InTime(ops) && (ops != [] ==> ops[|ops| - 1].at <= now)
    ensures var s := Run(capacity, Fresh(policy), ops); Good(s, now) && |s.resident| <= capacity
    decreases |ops|
  {
    hide Good; hide Apply; hide Sound; hide Tracked;
    if ops == [] {
      FreshIsGood(policy, now);
    } else {
      var front, op := ops[..|ops| - 1], ops[|ops| - 1];
      RunKeeps(capacity, policy, front, op.at);
      var s := Run(capacity, Fresh(policy), front);
      ApplyKeeps(capacity, s, op);
      TimePasses(Apply(capacity, s, op), op.at, now);
    }
  }

  lemma ApplyKeeps(capacity: nat, s: CacheState, op: Op)
    requires Good(s, op.at) && |s.resident| <= capacity
    ensures var t := Apply(capacity, s, op); Good(t, op.at) && |t.resident| <= capacity
  {
    hide Good; hide LookedUp;
    if op.DoLookup? {
      LookupKeepsGood(s, op.prefix, op.at);
    } else {
      PlaceKeeps(capacity, s, op.prefix, op.at, op.pinned);
    }
  }

  // --- what an operation adds to the log ------------------------------------

  /** `log` is `was` followed by changes at instant `at`. */
  ghost predicate Extends(was: seq<Change>, log: seq<Change>, at: real) {
    |was| <= |log| && log[..|was|] == was && forall i :: |was| <= i < |log| ==> log[i].at == at
  }

  lemma {:induction false} EvictExtends(s: CacheState, victims: seq<Block>, at: real)
    ensures Extends(s.log, EvictAll(s, victims, at).log, at)
    decreases |victims|
  {
    if victims != [] {
      EvictExtends(s, victims[..|victims| - 1], at);
    }
  }

  lemma {:induction false} PlaceExtends(capacity: nat, s: CacheState, prefix: seq<Block>, at: real, pinned: set<Block>)
    ensures Extends(s.log, Placed(capacity, s, prefix, at, pinned).log, at)
    decreases |prefix|
  {
    hide EvictAll; hide VictimsOf;
    if prefix != [] {
      var front, b := prefix[..|prefix| - 1], prefix[|prefix| - 1];
      PlaceExtends(capacity, s, front, at, pinned);
      var p := PlaceAll(capacity, s, front, at, pinned);
      var c := p.cache;
      var admitted := c.(policy := OnAdmit(c.policy, b));
      var needed := if |c.resident| + 1 > capacity then |c.resident| + 1 - capacity else 0;
      EvictExtends(admitted, VictimsOf(admitted.policy, needed, c.resident, pinned + p.mine), at);
    }
  }

  lemma {:induction false} TouchExtends(s: CacheState, blocks: seq<Block>)
    ensures TouchAll(s, blocks).log == s.log
    decreases |blocks|
  {
    if blocks != [] {
      TouchExtends(s, blocks[..|blocks| - 1]);
    }
  }

  lemma ApplyExtends(capacity: nat, s: CacheState, op: Op)
    ensures Extends(s.log, Apply(capacity, s, op).log, op.at)
  {
    if op.DoLookup? {
      TouchExtends(s, op.prefix[..HitCount(s.resident, op.prefix)]);
    } else {
      PlaceExtends(capacity, s, op.prefix, op.at, op.pinned);
    }
  }

  /** Changes after `t` do not matter at `t`. */
  lemma {:induction false} LaterChangesDoNotMatter(was: seq<Change>, log: seq<Change>, at: real, t: real)
    requires Extends(was, log, at) && at > t
    ensures ResidentAt(log, t) == ResidentAt(was, t)
    decreases |log|
  {
    if |log| > |was| {
      var front := log[..|log| - 1];
      assert front[..|was|] == was;
      LaterChangesDoNotMatter(was, front, at, t);
    } else {
      assert log == was;
    }
  }

  lemma {:induction false} ResidencyThen(capacity: nat, s: CacheState, ops: seq<Op>, j: nat, t: real)
    requires j <= |ops| && forall i :: j <= i < |ops| ==> ops[i].at > t
    ensures ResidentAt(Run(capacity, s, ops).log, t) == ResidentAt(Run(capacity, s, ops[..j]).log, t)
    decreases |ops|
  {
    hide Apply; hide ResidentAt;
    if j < |ops| {
      var front, op := ops[..|ops| - 1], ops[|ops| - 1];
      assert front[..j] == ops[..j];
      ResidencyThen(capacity, s, front, j, t);
      ApplyExtends(capacity, Run(capacity, s, front), op);
      LaterChangesDoNotMatter(Run(capacity, s, front).log, Run(capacity, s, ops).log, op.at, t);
    } else {
      assert ops[..j] == ops;
    }
  }

  /** A historical preview at `t` is the ordinary preview of the cache as it stood after all
      operations at times up to `t`, including blocks evicted and reinserted at `t` itself. */
  lemma {:induction false} PreviewAtIsHistorical(capacity: nat, policy: Policy, ops: seq<Op>, j: nat,
                                                 prefix: seq<Block>, t: real)
    requires Sound(policy) && Tracked(policy) == {} && InTime(ops) && j <= |ops|
    requires forall i :: 0 <= i < j ==> ops[i].at <= t
    requires forall i :: j <= i < |ops| ==> ops[i].at > t
    ensures HitCountAt(Run(capacity, Fresh(policy), ops).history, prefix, t)
            == HitCount(Run(capacity, Fresh(policy), ops[..j]).resident, prefix)
  {
    hide Run; hide TellsAll; hide Sound; hide Tracked;
    var now, past := Run(capacity, Fresh(policy), ops), Run(capacity, Fresh(policy), ops[..j]);
    var end := if ops == [] then t else ops[|ops| - 1].at;
    RunKeeps(capacity, policy, ops, end);
    RunKeeps(capacity, policy, ops[..j], t);
    HistoryTells(now, end, prefix, t);
    ResidencyThen(capacity, Fresh(policy), ops, j, t);
    AllPast(past.log, t, t);
  }
}
