/** Where the map owner places a leg: the baseline order, the cache-aware choice, and the
    fail-open rules of src/prefill_cache_sim/chain/{protocol,harness}.py.
 */
module ChainSelection {
  import opened Options
  import opened ChainProtocol

  datatype ViewSnapshot = ViewSnapshot(epoch: nat, ageMs: nat, candidates: seq<string>, cachedTokens: seq<nat>)
  {
    predicate WellFormed() {
      && candidates != [] && |candidates| == |cachedTokens|
      && forall i, j :: 0 <= i < j < |candidates| ==> candidates[i] != candidates[j]
    }
  }

  lemma {:induction false} DistinctBySize(s: seq<string>)
    ensures (forall i, j :: 0 <= i < j < |s| ==> s[i] != s[j]) <==> |set c | c in s| == |s|
    ensures |set c | c in s| <= |s|
    decreases |s|
  {
    var all := set c | c in s;
    if s == [] {
      assert all == {};
    } else {
      var n := |s| - 1;
      var front, last := s[..n], s[n];
      var some := set c | c in front;
      DistinctBySize(front);
      assert all == some + {last};
      assert last in some <==> exists i :: 0 <= i < n && s[i] == last;
      assert forall i :: 0 <= i < n ==> front[i] == s[i];
    }
  }

  /** The owner's map names at least one host, none twice, and the tokens of each. */
  lemma SnapshotNamesHostsOnce(v: ViewSnapshot)
    ensures v.WellFormed() <==>
              |v.candidates| > 0 && |v.cachedTokens| == |v.candidates| && |set c | c in v.candidates| == |v.candidates|
  {
    DistinctBySize(v.candidates);
  }

  datatype FailOpenReason = SelectorTimeout | SelectorError | StaleView | CapabilityMismatch

  datatype SelectionOutcome = Disabled | ShadowRecorded | SelectorApplied | BaselineFailOpen

  datatype Selection = Selection(
    host: string, outcome: SelectionOutcome, scored: Option<string>, failOpen: Option<FailOpenReason>)

  /** The choice the chain makes without a selector: the first candidate not excluded. */
  function BaselineIndex(candidates: seq<string>, excluded: set<string>): (i: Option<nat>)
    ensures i.None? <==> forall c :: c in candidates ==> c in excluded
    ensures i.Some? ==>
              && i.value < |candidates| && candidates[i.value] !in excluded
              && forall j :: 0 <= j < i.value ==> candidates[j] in excluded
  {
    if candidates == [] then None
    else if candidates[0] !in excluded then Some(0)
    else
      assert forall c :: c in candidates <==> c == candidates[0] || c in candidates[1..];
      var rest := BaselineIndex(candidates[1..], excluded);
      if rest.None? then None else Some(rest.value + 1)
  }

  /** Position of the cache-aware choice: most reusable prefix, ties by map order. */
  function SelectorIndex(candidates: seq<string>, tokens: seq<nat>, excluded: set<string>): (i: Option<nat>)
    requires |candidates| == |tokens|
    ensures i.None? <==> forall c :: c in candidates ==> c in excluded
    ensures i.Some? ==>
              && i.value < |candidates| && candidates[i.value] !in excluded
              && (forall j :: 0 <= j < |candidates| && candidates[j] !in excluded ==> tokens[j] <= tokens[i.value])
              && (forall j :: 0 <= j < i.value && candidates[j] !in excluded ==> tokens[j] < tokens[i.value])
  {
    if candidates == [] then None
    else
      assert forall c :: c in candidates <==> c == candidates[0] || c in candidates[1..];
      var rest := SelectorIndex(candidates[1..], tokens[1..], excluded);
      if candidates[0] in excluded then
        (if rest.None? then None else Some(rest.value + 1))
      else if rest.None? || tokens[0] >= tokens[1..][rest.value] then
        assert rest.None? ==> forall j :: 0 < j < |candidates| ==> candidates[j] in candidates[1..];
        Some(0)
      else Some(rest.value + 1)
  }

  function ReasonToFailOpen(maxViewAgeMs: nat, lastViewEpoch: int, handshake: Option<Handshake>,
                            snapshot: ViewSnapshot, timeout: bool, error: bool): Option<FailOpenReason>
  {
    if timeout then Some(SelectorTimeout)
    else if error then Some(SelectorError)
    else if snapshot.ageMs > maxViewAgeMs then Some(StaleView)
    else if snapshot.epoch < lastViewEpoch then Some(StaleView)
    else if handshake.Some? && !handshake.value.accepted then Some(CapabilityMismatch)
    else None
  }

  /** What the owner answers once exclusions are checked: the mode and the reasons to fail
      open decide whether the baseline or the selector places the leg. */
  function Choose(mode: Mode, reason: Option<FailOpenReason>, base: string, best: string, scores: bool): Outcome<Selection> {
    var scored := if scores then Some(best) else None;
    if mode.Off? then Ok(Selection(base, Disabled, None, None))
    else if reason.Some? then
      if mode.Required? then Raised(RequiredMode)
      else if reason.value.StaleView? then Ok(Selection(base, ShadowRecorded, scored, reason))
      else Ok(Selection(base, BaselineFailOpen, None, reason))
    else if mode.Shadow? then Ok(Selection(base, ShadowRecorded, scored, None))
    else Ok(Selection(if scores then best else base, SelectorApplied, scored, None))
  }

  /** The owner's whole answer.  Exclusions must come from this request's own failed legs. */
  function Answer(mode: Mode, maxViewAgeMs: nat, exhausted: bool, failedHosts: set<string>, lastViewEpoch: int,
                  handshake: Option<Handshake>, snapshot: ViewSnapshot, exclude: set<string>,
                  timeout: bool, error: bool): (r: Outcome<Selection>)
    requires snapshot.WellFormed()
    ensures r.Ok? ==> !exhausted && exclude <= failedHosts
                      && r.value.host in snapshot.candidates && r.value.host !in exclude
  {
    var base := BaselineIndex(snapshot.candidates, exclude);
    var best := SelectorIndex(snapshot.candidates, snapshot.cachedTokens, exclude);
    if exhausted then Raised(Exhausted)
    else if !(exclude <= failedHosts) then Raised(UnprovenExclusion)
    else if base.None? || best.None? then Raised(AllExcluded)
    else
      Choose(mode, ReasonToFailOpen(maxViewAgeMs, lastViewEpoch, handshake, snapshot, timeout, error),
             snapshot.candidates[base.value], snapshot.candidates[best.value],
             handshake.Some? && handshake.value.CacheScores())
  }

  /** Nothing stands against using the selector: it answered, its view is no older than allowed
      and not from before an epoch already seen, and no handshake refused it. */
  ghost predicate Healthy(maxViewAgeMs: nat, lastViewEpoch: int, handshake: Option<Handshake>, snapshot: ViewSnapshot,
                          timeout: bool, error: bool)
  {
    && !timeout && !error && snapshot.ageMs <= maxViewAgeMs && lastViewEpoch <= snapshot.epoch
    && (handshake.Some? ==> handshake.value.accepted)
  }

  /** Cache scores were negotiated. */
  ghost predicate Scores(handshake: Option<Handshake>) {
    handshake.Some? && handshake.value.accepted && PrefixCacheQuery !in handshake.value.degraded
  }

  ghost predicate IsBest(hosts: seq<string>, tokens: seq<nat>, exclude: set<string>, host: string)
    requires |hosts| == |tokens|
  {
    exists i ::
      && 0 <= i < |hosts| && hosts[i] == host && host !in exclude
      && (forall j :: 0 <= j < i && hosts[j] !in exclude ==> tokens[j] < tokens[i])
      && (forall j :: i <= j < |hosts| && hosts[j] !in exclude ==> tokens[j] <= tokens[i])
  }

  ghost predicate IsFirst(hosts: seq<string>, exclude: set<string>, host: string) {
    exists i ::
      && 0 <= i < |hosts| && hosts[i] == host && host !in exclude
      && (forall j :: 0 <= j < i ==> hosts[j] in exclude)
  }

  /** At most one host is best and at most one is first. */
  lemma OneBestOneFirst(v: ViewSnapshot, exclude: set<string>, x: string, y: string)
    requires v.WellFormed()
    ensures IsBest(v.candidates, v.cachedTokens, exclude, x) && IsBest(v.candidates, v.cachedTokens, exclude, y) ==> x == y
    ensures IsFirst(v.candidates, exclude, x) && IsFirst(v.candidates, exclude, y) ==> x == y
  {
  }

  /** Exactly when the owner places the leg at all. */
  lemma PlacesUnlessRefused(mode: Mode, maxViewAgeMs: nat, exhausted: bool, failedHosts: set<string>, lastViewEpoch: int,
                            handshake: Option<Handshake>, snapshot: ViewSnapshot, exclude: set<string>,
                            timeout: bool, error: bool)
    requires snapshot.WellFormed()
    ensures var r := Answer(mode, maxViewAgeMs, exhausted, failedHosts, lastViewEpoch, handshake, snapshot, exclude,
                            timeout, error);
            r.Ok? <==>
              && !exhausted && exclude <= failedHosts
              && (exists c :: c in snapshot.candidates && c !in exclude)
              && (mode.Required? ==> Healthy(maxViewAgeMs, lastViewEpoch, handshake, snapshot, timeout, error))
    ensures var r := Answer(mode, maxViewAgeMs, exhausted, failedHosts, lastViewEpoch, handshake, snapshot, exclude,
                            timeout, error);
            && (exhausted ==> r == Raised(Exhausted))
            && (!exhausted && !(exclude <= failedHosts) ==> r == Raised(UnprovenExclusion))
  {
    var base := BaselineIndex(snapshot.candidates, exclude);
    var best := SelectorIndex(snapshot.candidates, snapshot.cachedTokens, exclude);
    hide BaselineIndex; hide SelectorIndex;
    assert base.Some? ==> snapshot.candidates[base.value] in snapshot.candidates;
  }

  /** Where the leg goes among all candidates.  With a healthy selector, negotiated scores and a mode
      that enforces it: to the one with more cached tokens than every allowed candidate before it
      and no fewer than any after it.  Otherwise to the first allowed one. */
  lemma LegGoesToBestOrFirst(mode: Mode, maxViewAgeMs: nat, exhausted: bool, failedHosts: set<string>,
                             lastViewEpoch: int, handshake: Option<Handshake>, snapshot: ViewSnapshot,
                             exclude: set<string>, timeout: bool, error: bool)
    requires snapshot.WellFormed()
    ensures var r := Answer(mode, maxViewAgeMs, exhausted, failedHosts, lastViewEpoch, handshake, snapshot, exclude,
                            timeout, error);
            r.Ok? ==>
              if (mode.Enforce? || mode.Required?) && Scores(handshake)
                 && Healthy(maxViewAgeMs, lastViewEpoch, handshake, snapshot, timeout, error)
              then IsBest(snapshot.candidates, snapshot.cachedTokens, exclude, r.value.host)
                   && r.value == Selection(r.value.host, SelectorApplied, Some(r.value.host), None)
              else IsFirst(snapshot.candidates, exclude, r.value.host)
  {
    var base := BaselineIndex(snapshot.candidates, exclude);
    var best := SelectorIndex(snapshot.candidates, snapshot.cachedTokens, exclude);
    hide BaselineIndex; hide SelectorIndex;
    if base.Some? && best.Some? {
      assert snapshot.candidates[base.value] !in exclude && snapshot.candidates[best.value] !in exclude;
    }
  }

  /** A timeout, an error, a view too old or from a past epoch, or a refused handshake: the selector
      is never applied.  Required mode refuses, and every other mode but off records the first of
      these reasons; only a stale view is still scored, for the shadow record. */
  lemma FaultsFailOpen(mode: Mode, maxViewAgeMs: nat, exhausted: bool, failedHosts: set<string>, lastViewEpoch: int,
                       handshake: Option<Handshake>, snapshot: ViewSnapshot, exclude: set<string>,
                       timeout: bool, error: bool)
    requires snapshot.WellFormed() && !mode.Off?
    requires !Healthy(maxViewAgeMs, lastViewEpoch, handshake, snapshot, timeout, error)
    ensures var r := Answer(mode, maxViewAgeMs, exhausted, failedHosts, lastViewEpoch, handshake, snapshot, exclude,
                            timeout, error);
            && (mode.Required? ==> r.Raised?)
            && (r.Ok? ==>
                  && IsFirst(snapshot.candidates, exclude, r.value.host)
                  && (timeout ==> r.value.failOpen == Some(SelectorTimeout))
                  && (!timeout && error ==> r.value.failOpen == Some(SelectorError))
                  && (!timeout && !error && (snapshot.ageMs > maxViewAgeMs || snapshot.epoch < lastViewEpoch) ==>
                        r.value.failOpen == Some(StaleView))
                  && (!timeout && !error && snapshot.ageMs <= maxViewAgeMs && lastViewEpoch <= snapshot.epoch ==>
                        r.value.failOpen == Some(CapabilityMismatch))
                  && (if r.value.failOpen == Some(StaleView)
                      then r.value.outcome == ShadowRecorded && (r.value.scored.Some? <==> Scores(handshake))
                      else r.value.outcome == BaselineFailOpen && r.value.scored.None?)
                  && (r.value.scored.Some? ==>
                        IsBest(snapshot.candidates, snapshot.cachedTokens, exclude, r.value.scored.value)))
  {
    var base := BaselineIndex(snapshot.candidates, exclude);
    var best := SelectorIndex(snapshot.candidates, snapshot.cachedTokens, exclude);
    hide BaselineIndex; hide SelectorIndex;
    if base.Some? && best.Some? {
      assert snapshot.candidates[base.value] !in exclude && snapshot.candidates[best.value] !in exclude;
    }
  }

  /** A healthy selector leaves no reason to fail open: shadow mode records its choice and places the
      leg as if it were off, and the modes that enforce it apply it. */
  lemma HealthySelectorIsUsed(mode: Mode, maxViewAgeMs: nat, exhausted: bool, failedHosts: set<string>,
                              lastViewEpoch: int, handshake: Option<Handshake>, snapshot: ViewSnapshot,
                              exclude: set<string>, timeout: bool, error: bool)
    requires snapshot.WellFormed()
    requires mode.Off? || Healthy(maxViewAgeMs, lastViewEpoch, handshake, snapshot, timeout, error)
    ensures var r := Answer(mode, maxViewAgeMs, exhausted, failedHosts, lastViewEpoch, handshake, snapshot, exclude,
                            timeout, error);
            r.Ok? ==>
              && r.value.failOpen.None?
              && (r.value.outcome == if mode.Off? then Disabled else if mode.Shadow? then ShadowRecorded else SelectorApplied)
              && (r.value.scored.Some? <==> !mode.Off? && Scores(handshake))
              && (r.value.scored.Some? ==>
                    IsBest(snapshot.candidates, snapshot.cachedTokens, exclude, r.value.scored.value))
  {
    var base := BaselineIndex(snapshot.candidates, exclude);
    var best := SelectorIndex(snapshot.candidates, snapshot.cachedTokens, exclude);
    hide BaselineIndex; hide SelectorIndex;
    if base.Some? && best.Some? {
      assert snapshot.candidates[base.value] !in exclude && snapshot.candidates[best.value] !in exclude;
    }
  }

  /** Whenever the selector may not decide, the chain behaves as if it were switched off: the same
      host or the same refusal, except that required mode refuses to fail open. */
  lemma WithoutSelectorAsIfOff(mode: Mode, maxViewAgeMs: nat, exhausted: bool, failedHosts: set<string>,
                               lastViewEpoch: int, handshake: Option<Handshake>, snapshot: ViewSnapshot,
                               exclude: set<string>, timeout: bool, error: bool)
    requires snapshot.WellFormed()
    requires mode.Off? || mode.Shadow? || !Scores(handshake)
             || !Healthy(maxViewAgeMs, lastViewEpoch, handshake, snapshot, timeout, error)
    ensures var r := Answer(mode, maxViewAgeMs, exhausted, failedHosts, lastViewEpoch, handshake, snapshot, exclude,
                            timeout, error);
            var off := Answer(Off, maxViewAgeMs, exhausted, failedHosts, lastViewEpoch, handshake, snapshot, exclude,
                              timeout, error);
            if mode.Required? && !Healthy(maxViewAgeMs, lastViewEpoch, handshake, snapshot, timeout, error) then r.Raised?
            else (r.Ok? <==> off.Ok?) && (r.Ok? ==> r.value.host == off.value.host)
  {
    hide BaselineIndex; hide SelectorIndex;
  }
}
