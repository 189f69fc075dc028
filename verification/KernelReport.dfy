/** What a run reports (src/prefill_cache_sim/m12_kernel.py:860-955): the outcome record of every
    attempt, when the metrics accept the records of a run, and that they then account for all the
    work the run issued.
 */
module KernelReport {
  import opened Options
  import opened OrderedDicts
  import opened KernelModel
  import KernelSteps
  import KernelSafety
  import KernelInvariant
  import KernelRuns
  import KernelTimes
  import PrefillPrices
  import opened WorkTaxonomy

  /** What the workload knows of a request and the kernel does not: its true output length, and what
      the tiers allow a request to take. */
  datatype Truth = Truth(outputTokens: map<string, nat>, sloWork: map<string, real>)

  predicate Covers(truth: Truth, r: Request) {
    r.id in truth.outputTokens && r.tier in truth.sloWork
  }

  /** Completed by the end of the observation. */
  predicate InTime(c: Config, item: Pending) {
    item.spec.terminal.Completed? && item.finish.Some? && item.finish.value <= c.observationEnd
  }

  /** `_materialize`: the record of an attempt, or nothing if it completed with a length that is not
      the request's. */
  function Record(c: Config, truth: Truth, item: Pending): Option<Outcome>
    requires Covers(truth, item.request)
  {
    var r, emitted := item.request, item.spec.emittedTokens;
    var completed := InTime(c, item);
    var decode := emitted as real * c.cost.decodePerToken;
    if completed && emitted != truth.outputTokens[r.id] then None
    else
      Some(Outcome(
             r.id, item.spec.index, r.inputTokens, emitted, completed,
             completed && item.finish.value - r.arrivalWork <= truth.sloWork[r.tier],
             if completed then item.finish else None,
             item.prefillWork, decode,
             if !item.spec.terminal.Completed? && !item.spec.prefillReusable then item.prefillWork else 0.0,
             if !item.spec.terminal.Completed? then decode else 0.0))
  }

  /** There is no record exactly for an attempt that completed in time with another length than the
      true one. */
  lemma NoRecordIff(c: Config, truth: Truth, item: Pending)
    requires Covers(truth, item.request)
    ensures Record(c, truth, item).None? <==>
              && item.spec.terminal.Completed? && item.finish.Some? && item.finish.value <= c.observationEnd
              && item.spec.emittedTokens != truth.outputTokens[item.request.id]
  {
  }

  /** An attempt counts as completed when it did so in time and in full; its objective is met when the
      request waited no longer than its tier allows, from arrival to the last token. */
  lemma CompletedMeans(c: Config, truth: Truth, item: Pending)
    requires Covers(truth, item.request) && Record(c, truth, item).Some?
    ensures var a := Record(c, truth, item).value;
            && (a.completed <==> item.spec.terminal.Completed? && item.finish.Some? && item.finish.value <= c.observationEnd)
            && (a.completed ==> a.finish == item.finish && a.emittedTokens == truth.outputTokens[item.request.id])
            && (a.strictSloMet <==>
                  a.completed && item.finish.value <= item.request.arrivalWork + truth.sloWork[item.request.tier])
            && a.id == item.request.id && a.index == item.spec.index && a.inputTokens == item.request.inputTokens
  {
  }

  /** Work that was not wasted: all of a completed attempt's, the prefill of another one if it can be
      reused, and nothing else. */
  lemma UsefulWorkMeans(c: Config, truth: Truth, item: Pending)
    requires Covers(truth, item.request) && Record(c, truth, item).Some?
    ensures var a := Record(c, truth, item).value;
            && Issued(a) == item.prefillWork + item.spec.emittedTokens as real * c.cost.decodePerToken
            && (item.spec.terminal.Completed? ==> Wasted(a) == 0.0)
            && (!item.spec.terminal.Completed? ==>
                  Useful(a) == if item.spec.prefillReusable then item.prefillWork else 0.0)
  {
  }

  lemma ProductOfCounts(n: nat, x: real)
    requires x >= 0.0
    ensures n as real * x >= 0.0
  {
  }

  /** A record of work that took its time is consistent: nothing is wasted that was not issued. */
  lemma RecordIsConsistent(c: Config, truth: Truth, item: Pending)
    requires ValidConfig(c) && Covers(truth, item.request) && Record(c, truth, item).Some? && item.prefillWork >= 0.0
    ensures Consistent(Record(c, truth, item).value)
  {
    ProductOfCounts(item.spec.emittedTokens, c.cost.decodePerToken);
  }

  lemma {:induction false} SizeWithinPrompt(prefix: seq<Block>, n: nat)
    requires n <= |prefix|
    ensures PrefillPrices.Size(prefix, n) <= TokensOf(prefix)
  {
    PrefillPrices.SizesAgree({}, prefix, n);
    TokensOfPrefix(prefix, n);
  }

  lemma PriceIsNotNegative(c: Config, item: Pending)
    requires ValidConfig(c) && ValidRequest(item.request)
    requires KernelTimes.Priced(c, item)
    ensures item.prefillWork >= 0.0
  {
    hide TokensOf; hide PrefillPrices.Size; hide PrefillPrices.Fetched;
    var local: set<string>, n: nat :| n <= |item.request.prefix| && PrefillPrices.Pays(c.cost, item, local, n);
    SizeWithinPrompt(item.request.prefix, n);
    ScaledBetween(PrefillPrices.Size(item.request.prefix, n), item.request.inputTokens, c.cost.prefillPerToken);
  }

  lemma InTimeMeansWork(c: Config, now: real, since: real, st: KernelSteps.Stage, item: Pending)
    requires ValidConfig(c) && ValidRequest(item.request) && KernelTimes.TakesItsTime(c, now, since, st, item)
    ensures item.prefillWork >= 0.0
  {
    hide KernelTimes.Priced;
    if item.prefillStart.Some? { PriceIsNotNegative(c, item); }
  }

  // --- the report of a run --------------------------------------------------

  /** The records of the attempts in `order`, if all of them can be made. */
  function Records(c: Config, truth: Truth, pending: map<Key, Pending>, order: seq<Key>): Option<seq<Outcome>>
    requires forall k :: k in order ==> k in pending && Covers(truth, pending[k].request)
    decreases |order|
  {
    if order == [] then Some([])
    else
      var k := order[|order| - 1];
      var front, last := Records(c, truth, pending, order[..|order| - 1]), Record(c, truth, pending[k]);
      if front.Some? && last.Some? then Some(front.value + [last.value]) else None
  }

  lemma {:induction false} RecordsAre(c: Config, truth: Truth, pending: map<Key, Pending>, order: seq<Key>)
    requires forall k :: k in order ==> k in pending && Covers(truth, pending[k].request)
    ensures var r := Records(c, truth, pending, order);
            && (r.Some? <==> forall i :: 0 <= i < |order| ==> Record(c, truth, pending[order[i]]).Some?)
            && (r.Some? ==> |r.value| == |order|
                            && forall i :: 0 <= i < |order| ==> Some(r.value[i]) == Record(c, truth, pending[order[i]]))
    decreases |order|
  {
    hide Record;
    if order != [] {
      var front := order[..|order| - 1];
      RecordsAre(c, truth, pending, front);
      assert forall i :: 0 <= i < |front| ==> front[i] == order[i];
    }
  }

  /** The workload as the metrics see it: prompts and true output lengths. */
  ghost predicate Describes(w: Dict<string, Logical>, truth: Truth, requests: map<string, Request>) {
    forall id :: id in requests ==>
      && Covers(truth, requests[id]) && Has(w, id)
      && Get(w, id).inputTokens == requests[id].inputTokens && Get(w, id).outputTokens == truth.outputTokens[requests[id].id]
  }

  /** `order` lists every attempt of the run once. */
  ghost predicate ListsAttempts(pending: map<Key, Pending>, order: seq<Key>) {
    && (forall k :: k in order <==> k in pending)
    && (forall i, j :: 0 <= i < j < |order| ==> order[i] != order[j])
  }

  /** No two attempts of a request end up with the same index. */
  ghost predicate IndicesApart(pending: map<Key, Pending>) {
    forall j, k :: j in pending && k in pending && j != k && pending[j].request.id == pending[k].request.id ==>
      pending[j].spec.index != pending[k].spec.index
  }

  /** In particular while every abort keeps the index it answers for. */
  lemma KeptIndicesAreApart(pending: map<Key, Pending>)
    requires forall k :: k in pending ==> pending[k].request.id == k.0 && pending[k].spec.index == k.1
    ensures IndicesApart(pending)
  {
    forall j, k | j in pending && k in pending && j != k && pending[j].request.id == pending[k].request.id
      ensures pending[j].spec.index != pending[k].spec.index
    {
      assert j == (j.0, j.1) && k == (k.0, k.1);
    }
  }

  lemma RecordMatches(c: Config, truth: Truth, requests: map<string, Request>, w: Dict<string, Logical>, item: Pending)
    requires Describes(w, truth, requests) && item.request.id in requests && requests[item.request.id] == item.request
    ensures Covers(truth, item.request)
    ensures Record(c, truth, item).Some? ==> Matches(w, Record(c, truth, item).value)
  {
  }

  /** The metrics accept the records of a run exactly if no abort has given an attempt the index of
      another attempt of its request. */
  lemma {:induction false} ReportAcceptedIff(c: Config, truth: Truth, requests: map<string, Request>,
                                             w: Dict<string, Logical>, pending: map<Key, Pending>, order: seq<Key>)
    requires Describes(w, truth, requests) && ListsAttempts(pending, order)
    requires forall k :: k in pending ==> pending[k].request.id in requests && requests[pending[k].request.id] == pending[k].request
    requires forall k :: k in order ==> k in pending && Covers(truth, pending[k].request)
    requires Records(c, truth, pending, order).Some?
    ensures Accepted(w, Records(c, truth, pending, order).value) <==> IndicesApart(pending)
  {
    hide Records; hide Record; hide Matches; hide Describes; hide Accepted;
    var a := Records(c, truth, pending, order).value;
    RecordsAre(c, truth, pending, order);
    AcceptedMeans(w, a);
    forall i | 0 <= i < |a| ensures Matches(w, a[i]) && RecordOf(pending[order[i]], a[i]) {
      RecordMatches(c, truth, requests, w, pending[order[i]]);
      RecordKeeps(c, truth, pending[order[i]]);
    }
    assert ((forall i, j :: 0 <= i < j < |a| ==> (a[i].id, a[i].index) != (a[j].id, a[j].index)) <==> IndicesApart(pending)) by {
      KeysApart(pending, order, a);
    }
  }

  /** The record carries the attempt's request and index. */
  predicate RecordOf(item: Pending, a: Outcome) {
    a.id == item.request.id && a.index == item.spec.index
  }

  lemma RecordKeeps(c: Config, truth: Truth, item: Pending)
    requires Covers(truth, item.request) && Record(c, truth, item).Some?
    ensures RecordOf(item, Record(c, truth, item).value)
  {
  }

  lemma KeysApart(pending: map<Key, Pending>, order: seq<Key>, a: seq<Outcome>)
    requires ListsAttempts(pending, order) && |a| == |order|
    requires forall i :: 0 <= i < |a| ==> RecordOf(pending[order[i]], a[i])
    ensures (forall i, j :: 0 <= i < j < |a| ==> (a[i].id, a[i].index) != (a[j].id, a[j].index)) <==> IndicesApart(pending)
  {
    if forall i, j :: 0 <= i < j < |a| ==> (a[i].id, a[i].index) != (a[j].id, a[j].index) {
      forall j, k | j in pending && k in pending && j != k && pending[j].request.id == pending[k].request.id
        ensures pending[j].spec.index != pending[k].spec.index
      {
        var x :| 0 <= x < |order| && order[x] == j;
        var y :| 0 <= y < |order| && order[y] == k;
        assert RecordOf(pending[order[x]], a[x]) && RecordOf(pending[order[y]], a[y]);
        if x < y { assert (a[x].id, a[x].index) != (a[y].id, a[y].index); }
        else { assert (a[y].id, a[y].index) != (a[x].id, a[x].index); }
      }
    }
    if IndicesApart(pending) {
      forall i, j | 0 <= i < j < |a| ensures (a[i].id, a[i].index) != (a[j].id, a[j].index) {
        assert order[i] in pending && order[j] in pending && order[i] != order[j];
        assert RecordOf(pending[order[i]], a[i]) && RecordOf(pending[order[j]], a[j]);
      }
    }
  }

  lemma PendingInTime(c: Config, w: map<string, Request>, s: KernelSteps.State, k: Key)
    requires KernelSafety.Tabled(c, w, s.planned, s.pending, s.issued, s.alog.stage) && KernelTimes.AllInTime(c, s)
    requires k in s.pending
    ensures k.0 in w && s.pending[k].request == w[k.0]
    ensures k in s.alog.since && k in s.alog.stage
    ensures KernelTimes.TakesItsTime(c, s.now, s.alog.since[k], s.alog.stage[k], s.pending[k])
  {
    hide KernelTimes.TakesItsTime;
  }

  /** From the end of any run to the report: the records are consistent, and if no abort has made two
      attempts share an index, waste, missed objectives and credited work account for everything the
      run issued, with the credit never above the offer. */
  lemma {:induction false} RunReportAddsUp(c: Config, workload: seq<Request>, states: seq<KernelSteps.State>,
                                           turns: seq<KernelRuns.Turn>, n: nat, truth: Truth, w: Dict<string, Logical>,
                                           order: seq<Key>, winners: Dict<string, Outcome>)
    requires ValidConfig(c) && KernelSteps.ValidWorkload(c, workload) && KernelRuns.IsRun(c, states, turns) && n <= |turns|
    requires states[0] == KernelSteps.Initial(c, workload)
    requires Distinct(w) && Describes(w, truth, KernelRuns.ById(workload)) && ListsAttempts(states[n].pending, order)
    requires IndicesApart(states[n].pending)
    ensures forall k :: k in order ==> Covers(truth, states[n].pending[k].request)
    ensures var records := Records(c, truth, states[n].pending, order);
            records.Some? ==>
              var a := records.value;
              && AllConsistent(a) && Accepted(w, a)
              && (IsWinners(a, winners) ==>
                    && TotalIssued(a) == TotalWasted(a) + SloMissed(a) + WinnerWork(winners) + NeitherWork(a, winners)
                    && NeitherWork(a, winners) >= 0.0 && StrictUseful(winners) <= Offered(w))
  {
    hide KernelRuns.ById; hide ListsAttempts; hide KernelRuns.Legal; hide KernelSteps.Step; hide IndicesApart; hide Records; hide Record;
    hide KernelTimes.AllInTime; hide KernelSafety.Tabled; hide IsWinners; hide Accepted; hide Consistent;
    hide TotalIssued; hide TotalWasted; hide SloMissed; hide WinnerWork; hide NeitherWork; hide StrictUseful; hide Offered;
    var pending, requests := states[n].pending, KernelRuns.ById(workload);
    PendingOfRun(c, workload, states, turns, n);
    forall k | k in order ensures k in pending && Covers(truth, pending[k].request) {
      Attempts(pending, order, k);
      assert requests[pending[k].request.id] == pending[k].request;
    }
    if Records(c, truth, pending, order).Some? {
      var a := Records(c, truth, pending, order).value;
      RecordsAre(c, truth, pending, order);
      forall x | x in a ensures Consistent(x) {
        var i :| 0 <= i < |a| && a[i] == x;
        RecordIsConsistent(c, truth, pending[order[i]]);
      }
      ReportAcceptedIff(c, truth, requests, w, pending, order);
      if IsWinners(a, winners) {
        TaxonomyPartitionsWork(w, a, winners);
        StrictUsefulWithinOffered(w, a, winners);
      }
    }
  }

  lemma Attempts(pending: map<Key, Pending>, order: seq<Key>, k: Key)
    requires ListsAttempts(pending, order)
    ensures k in order <==> k in pending
  {
  }

  lemma PendingOfRun(c: Config, workload: seq<Request>, states: seq<KernelSteps.State>, turns: seq<KernelRuns.Turn>, n: nat)
    requires ValidConfig(c) && KernelSteps.ValidWorkload(c, workload) && KernelRuns.IsRun(c, states, turns) && n <= |turns|
    requires states[0] == KernelSteps.Initial(c, workload)
    ensures forall k :: k in states[n].pending ==>
              && states[n].pending[k].request.id in KernelRuns.ById(workload)
              && KernelRuns.ById(workload)[states[n].pending[k].request.id] == states[n].pending[k].request
              && states[n].pending[k].prefillWork >= 0.0
  {
    hide KernelRuns.ById; hide KernelTimes.AllInTime; hide KernelRuns.Legal; hide KernelSteps.Step; hide KernelSafety.Tabled;
    var s, w := states[n], KernelRuns.ById(workload);
    KernelRuns.EveryRunIsSafe(c, workload, states, turns, n);
    KernelRuns.InitialIsSafe(c, workload);
    KernelTimes.EveryAttemptTakesItsTime(c, workload, states, turns, n);
    SafeTables(c, w, s);
    forall k | k in s.pending
      ensures s.pending[k].request.id in w && w[s.pending[k].request.id] == s.pending[k].request && s.pending[k].prefillWork >= 0.0
    {
      PendingInTime(c, w, s, k);
      InTimeMeansWork(c, s.now, s.alog.since[k], s.alog.stage[k], s.pending[k]);
    }
  }

  lemma SafeTables(c: Config, w: map<string, Request>, s: KernelSteps.State)
    requires KernelInvariant.Safe(c, w, s)
    ensures KernelSafety.Tabled(c, w, s.planned, s.pending, s.issued, s.alog.stage)
  {
  }
}
