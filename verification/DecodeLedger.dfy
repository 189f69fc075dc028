/** `DecodeCreditLedger` of src/prefill_cache_sim/m12_decode.py: temporal decode-capacity
    reservations and the debt they leave.  Credits, work and time are exact reals.
 */
module DecodeLedger {
  import opened Options
  import opened OrderedDicts
  import opened Timeline

  /** (logical request id, attempt index) */
  type Key = (string, int)

  datatype Error = InvalidArgument | Duplicate | NoCapacity | ExceedsCapacity | UnknownKey

  datatype Result<T> = Ok(value: T) | Err(error: Error)

  function Credits(items: seq<Reservation>): real {
    if items == [] then 0.0 else items[0].credits + Credits(items[1..])
  }

  function Total(d: Dict<Key, real>): real {
    if d == [] then 0.0 else d[0].1 + Total(d[1..])
  }

  /** The debt a key already carries. */
  function Owed(totals: Dict<Key, real>, k: Key): real {
    if Has(totals, k) then Get(totals, k) else 0.0
  }

  function Chunks(plans: Dict<Key, seq<Reservation>>): seq<Reservation> {
    if plans == [] then [] else plans[0].1 + Chunks(plans[1..])
  }

  function Running(executing: Dict<Key, Reservation>): seq<Reservation> {
    if executing == [] then [] else [executing[0].1] + Running(executing[1..])
  }

  /** Everything with a place on the timeline, leaving out the excluded key. */
  function Existing(plans: Dict<Key, seq<Reservation>>, executing: Dict<Key, Reservation>,
                    exclude: Option<Key>): seq<Reservation>
  {
    match exclude
    case None => Chunks(plans) + Running(executing)
    case Some(k) => Chunks(Pop(plans, k)) + Running(Pop(executing, k))
  }

  predicate Overlaps(chunks: seq<Reservation>, from: real, until: real) {
    exists i :: 0 <= i < |chunks| && chunks[i].startsAt < until && from < chunks[i].releasesAt
  }

  /** The plans that stay when something starts executing over `[from, until)`. */
  function KeepClear(plans: Dict<Key, seq<Reservation>>, from: real, until: real): Dict<Key, seq<Reservation>> {
    if plans == [] then []
    else (if Overlaps(plans[0].1, from, until) then [] else [plans[0]]) + KeepClear(plans[1..], from, until)
  }

  ghost predicate WellFormed(items: seq<Reservation>) {
    forall r :: r in items ==> r.credits >= 0.0 && r.startsAt <= r.releasesAt
  }

  /** No instant holds more than `level`. */
  ghost predicate Bounded(items: seq<Reservation>, level: real) {
    forall t: real :: Occupancy(items, t) <= level
  }

  /** Some instant holds exactly `level`. */
  ghost predicate Attains(items: seq<Reservation>, level: real) {
    exists t: real :: Occupancy(items, t) == level
  }

  /** `peak` is exactly the larger of `before` and the busiest instant. */
  ghost predicate LargerOf(before: real, items: seq<Reservation>, peak: real) {
    peak >= before && Bounded(items, peak) && (peak == before || Attains(items, peak))
  }

  /** The busiest instant of what runs, over an interval that starts at `from`. */
  function BusiestOver(running: seq<Reservation>, from: real, until: real): real {
    PeakOver(running, Breakpoints(running, from, until))
  }

  predicate NoEmptyPlan(plans: Dict<Key, seq<Reservation>>) {
    plans == [] || (plans[0].1 != [] && NoEmptyPlan(plans[1..]))
  }

  /** A key is planned or executing, never both, and owes a debt either way. */
  ghost predicate KeysAgree(active: Dict<Key, seq<Reservation>>, executing: Dict<Key, Reservation>,
                            totals: Dict<Key, real>)
  {
    && Distinct(active) && Distinct(executing) && Distinct(totals)
    && (forall k :: Has(active, k) ==> !Has(executing, k) && Has(totals, k))
    && (forall k :: Has(executing, k) ==> Has(totals, k))
    && NoEmptyPlan(active)
  }

  // --- the plan a reservation gets ------------------------------------------

  /** A chunk takes as much as fits, at the earliest instant after the chunk before. */
  ghost predicate NextInChain(items: seq<Reservation>, capacity: real, key: Key, credits: real,
                              now: real, done: seq<Reservation>, next: Reservation)
  {
    var cursor := if done == [] then now else done[|done| - 1].releasesAt;
    && (next.logicalRequestId, next.attemptIndex) == key
    && next.credits == Min(credits - Credits(done), capacity) && next.credits > 0.0
    && EarliestFit(items, capacity, cursor, next.credits, next.startsAt)
    && next.releasesAt == next.startsAt + Duration(next.credits)
  }

  ghost predicate GreedyChain(items: seq<Reservation>, capacity: real, key: Key, credits: real,
                              now: real, chunks: seq<Reservation>)
  {
    chunks == []
    || (var done, last := chunks[..|chunks| - 1], chunks[|chunks| - 1];
        && GreedyChain(items, capacity, key, credits, now, done)
        && NextInChain(items, capacity, key, credits, now, done, last))
  }

  /** The one plan `reserve` may make: all credits placed, greedily, in a chain. */
  ghost predicate Plan(items: seq<Reservation>, capacity: real, key: Key, credits: real,
                       now: real, chunks: seq<Reservation>)
  {
    if credits == 0.0 then
      chunks == [Reservation(key.0, key.1, 0.0, now, now + MIN_DURATION)]
    else
      && chunks != []
      && Credits(chunks) == credits
      && GreedyChain(items, capacity, key, credits, now, chunks)
  }

  /** A reservation of `width` credits lasts `width` work units, but never less than a billionth. */
  ghost predicate Lasts(r: Reservation, width: real) {
    r.releasesAt - r.startsAt == if width >= 0.000000001 then width else 0.000000001
  }

  lemma {:induction false} ChainLasts(items: seq<Reservation>, capacity: real, key: Key, credits: real, now: real,
                                      chunks: seq<Reservation>)
    requires GreedyChain(items, capacity, key, credits, now, chunks)
    ensures forall r :: r in chunks ==> Lasts(r, r.credits) && (r.logicalRequestId, r.attemptIndex) == key
    decreases |chunks|
  {
    hide EarliestFit;
    if chunks != [] {
      var done, last := chunks[..|chunks| - 1], chunks[|chunks| - 1];
      ChainLasts(items, capacity, key, credits, now, done);
      assert chunks == done + [last];
    }
  }

  /** Every chunk of a recorded plan is the key's own and lasts its own credits. */
  lemma ChunksLast(items: seq<Reservation>, capacity: real, key: Key, credits: real, now: real,
                   chunks: seq<Reservation>)
    requires Plan(items, capacity, key, credits, now, chunks)
    ensures forall r :: r in chunks ==> Lasts(r, r.credits) && (r.logicalRequestId, r.attemptIndex) == key
  {
    if credits != 0.0 { ChainLasts(items, capacity, key, credits, now, chunks); }
  }

  lemma {:induction false} OccupancyAppend(items: seq<Reservation>, r: Reservation, t: real)
    ensures Occupancy(items + [r], t) == Occupancy(items, t) + (if ActiveAt(r, t) then r.credits else 0.0)
  {
    OccupancyConcat(items, [r], t);
    assert Occupancy([r], t) == (if ActiveAt(r, t) then r.credits else 0.0) + Occupancy([], t);
  }

  lemma ProductNonNegative(x: real, y: real)
    requires x >= 0.0 && y >= 0.0
    ensures x * y >= 0.0
  {
  }

  // --- lemmas about sums ----------------------------------------------------

  lemma {:induction false} CreditsAppend(items: seq<Reservation>, r: Reservation)
    ensures Credits(items + [r]) == Credits(items) + r.credits
  {
    if items != [] {
      CreditsAppend(items[1..], r);
      assert (items + [r])[1..] == items[1..] + [r];
    }
  }

  lemma {:induction false} ChunksAppend(plans: Dict<Key, seq<Reservation>>, k: Key, chunks: seq<Reservation>)
    ensures Chunks(plans + [(k, chunks)]) == Chunks(plans) + chunks
  {
    if plans == [] {
      assert Chunks([(k, chunks)]) == chunks + Chunks([]);
    } else {
      ChunksAppend(plans[1..], k, chunks);
      assert (plans + [(k, chunks)])[1..] == plans[1..] + [(k, chunks)];
    }
  }

  lemma {:induction false} RunningAppend(executing: Dict<Key, Reservation>, k: Key, r: Reservation)
    ensures Running(executing + [(k, r)]) == Running(executing) + [r]
  {
    if executing != [] {
      RunningAppend(executing[1..], k, r);
      assert (executing + [(k, r)])[1..] == executing[1..] + [(k, r)];
    }
  }

  lemma {:induction false} ChunksPop(plans: Dict<Key, seq<Reservation>>, k: Key, t: real)
    requires NonNegative(Chunks(plans))
    ensures NonNegative(Chunks(Pop(plans, k)))
    ensures WellFormed(Chunks(plans)) ==> WellFormed(Chunks(Pop(plans, k)))
    ensures Occupancy(Chunks(Pop(plans, k)), t) <= Occupancy(Chunks(plans), t)
    ensures Has(plans, k) ==> NonNegative(Get(plans, k))
    ensures Has(plans, k) ==>
              Occupancy(Chunks(Pop(plans, k)), t) + Occupancy(Get(plans, k), t) == Occupancy(Chunks(plans), t)
  {
    if plans != [] {
      var head, tail := plans[0].1, Chunks(plans[1..]);
      assert forall r :: r in head || r in tail ==> r in Chunks(plans);
      OccupancyConcat(head, tail, t);
      if plans[0].0 == k {
        OccupancyNonNegative(head, t);
      } else {
        ChunksPop(plans[1..], k, t);
        OccupancyConcat(head, Chunks(Pop(plans[1..], k)), t);
        assert Pop(plans, k)[1..] == Pop(plans[1..], k);
      }
    }
  }

  lemma {:induction false} RunningPop(executing: Dict<Key, Reservation>, k: Key, t: real)
    requires NonNegative(Running(executing))
    ensures NonNegative(Running(Pop(executing, k)))
    ensures WellFormed(Running(executing)) ==> WellFormed(Running(Pop(executing, k)))
    ensures Occupancy(Running(Pop(executing, k)), t) <= Occupancy(Running(executing), t)
  {
    if executing != [] {
      var head, tail := executing[0].1, Running(executing[1..]);
      assert forall r :: r == head || r in tail ==> r in Running(executing);
      OccupancyConcat([head], tail, t);
      if executing[0].0 != k {
        RunningPop(executing[1..], k, t);
        OccupancyConcat([head], Running(Pop(executing[1..], k)), t);
        assert Pop(executing, k)[1..] == Pop(executing[1..], k);
      }
    }
  }

  lemma {:induction false} TotalPut(d: Dict<Key, real>, k: Key, v: real)
    ensures Total(Put(d, k, v)) == Total(d) + v - Owed(d, k)
  {
    if d != [] {
      if d[0].0 == k {
        assert Put(d, k, v)[1..] == d[1..];
      } else {
        TotalPut(d[1..], k, v);
        assert Put(d, k, v)[1..] == Put(d[1..], k, v);
      }
    }
  }

  /** Rebuilding an invalidated plan with the credits its key still owes adds nothing. */
  lemma {:induction false} RebuildAddsNothing(d: Dict<Key, real>, k: Key)
    requires Has(d, k)
    ensures Put(d, k, Get(d, k)) == d
  {
    if d[0].0 != k { RebuildAddsNothing(d[1..], k); }
  }

  lemma {:induction false} TotalPop(d: Dict<Key, real>, k: Key)
    requires Has(d, k)
    ensures Total(Pop(d, k)) == Total(d) - Get(d, k)
  {
    if d[0].0 != k {
      TotalPop(d[1..], k);
      assert Pop(d, k)[1..] == Pop(d[1..], k);
    }
  }

  /** Invalidation drops whole plans, never touches the others, and leaves the executed
      interval clear of plans. */
  lemma {:induction false} KeepClearClears(plans: Dict<Key, seq<Reservation>>, from: real, until: real, t: real)
    requires WellFormed(Chunks(plans))
    ensures WellFormed(Chunks(KeepClear(plans, from, until)))
    ensures Occupancy(Chunks(KeepClear(plans, from, until)), t) <= Occupancy(Chunks(plans), t)
    ensures from <= t < until ==> Occupancy(Chunks(KeepClear(plans, from, until)), t) == 0.0
  {
    if plans != [] {
      var head, tail := plans[0].1, Chunks(plans[1..]);
      var kept := Chunks(KeepClear(plans[1..], from, until));
      assert forall r :: r in head || r in tail ==> r in Chunks(plans);
      KeepClearClears(plans[1..], from, until, t);
      OccupancyConcat(head, tail, t);
      OccupancyConcat(head, kept, t);
      OccupancyNonNegative(head, t);
      if !Overlaps(head, from, until) {
        assert KeepClear(plans, from, until)[1..] == KeepClear(plans[1..], from, until);
        assert Chunks(KeepClear(plans, from, until)) == head + kept;
        if from <= t < until {
          forall r | r in head ensures !ActiveAt(r, t) {
            var i :| 0 <= i < |head| && head[i] == r;
          }
          NothingHeldOutside(head, t);
        }
      } else {
        assert KeepClear(plans, from, until) == KeepClear(plans[1..], from, until);
      }
    }
  }

  lemma {:induction false} KeepClearKeys(plans: Dict<Key, seq<Reservation>>, from: real, until: real)
    requires Distinct(plans)
    ensures Distinct(KeepClear(plans, from, until))
    ensures NoEmptyPlan(plans) ==> NoEmptyPlan(KeepClear(plans, from, until))
    ensures forall k :: Has(KeepClear(plans, from, until), k)
                        <==> Has(plans, k) && !Overlaps(Get(plans, k), from, until)
    ensures forall k :: Has(KeepClear(plans, from, until), k) ==>
                        Get(KeepClear(plans, from, until), k) == Get(plans, k)
  {
    if plans != [] {
      KeepClearKeys(plans[1..], from, until);
      var kept := KeepClear(plans, from, until);
      if !Overlaps(plans[0].1, from, until) {
        assert kept[1..] == KeepClear(plans[1..], from, until);
      } else {
        assert kept == KeepClear(plans[1..], from, until);
      }
    }
  }

  // --- the ledger -----------------------------------------------------------

  class DecodeCreditLedger {
    const capacityCredits: real
    var active: Dict<Key, seq<Reservation>>
    var executing: Dict<Key, Reservation>
    var reservedTotals: Dict<Key, real>
    var actualDecodeWork: real
    var reconciledCreditError: real
    var peakReservedDecodeCredits: real
    /** All credits ever opened; re-opening a key that still carries debt adds only the difference. */
    ghost var openedCredits: real

    ghost function Temporal(): seq<Reservation>
      reads `active, `executing
    {
      Chunks(active) + Running(executing)
    }

    /** What the placement arithmetic alone relies on. */
    ghost predicate Tidy()
      reads `active, `executing
    {
      capacityCredits >= 0.0 && WellFormed(Chunks(active)) && WellFormed(Running(executing))
    }

    ghost predicate Valid()
      reads this
    {
      && Tidy()
      && KeysAgree(active, executing, reservedTotals)
      && 0.0 <= peakReservedDecodeCredits <= capacityCredits
      && Bounded(Temporal(), peakReservedDecodeCredits)
      && Total(reservedTotals) + actualDecodeWork - reconciledCreditError == openedCredits
    }

    /** The peak is exactly the larger of `before` and the busiest instant. */
    ghost predicate PeakIs(before: real)
      reads this
    {
      LargerOf(before, Temporal(), peakReservedDecodeCredits)
    }

    constructor (capacity: real)
      requires capacity >= 0.0
      ensures Valid() && capacityCredits == capacity
      ensures active == [] && executing == [] && reservedTotals == []
      ensures openedCredits == 0.0 && peakReservedDecodeCredits == 0.0
      ensures actualDecodeWork == 0.0 && reconciledCreditError == 0.0
    {
      capacityCredits := capacity;
      active, executing, reservedTotals := [], [], [];
      actualDecodeWork, reconciledCreditError, peakReservedDecodeCredits := 0.0, 0.0, 0.0;
      openedCredits := 0.0;
    }

    /** The safety statement: at every real instant the credits of all planned and
        executing reservations stay within the peak, and the peak within capacity. */
    lemma {:induction false} NeverOverCapacity(t: real)
      requires Valid()
      ensures Occupancy(Temporal(), t) <= peakReservedDecodeCredits <= capacityCredits
    {
    }

    method AvailableAt(credits: real, nowWork: real, exclude: Option<Key>) returns (r: Result<real>)
      requires Tidy()
      ensures credits < 0.0 ==> r == Err(InvalidArgument)
      ensures credits > 0.0 && capacityCredits == 0.0 ==> r == Err(NoCapacity)
      ensures credits >= 0.0 && (credits > 0.0 ==> capacityCredits > 0.0) ==>
                r.Ok? && EarliestFit(Existing(active, executing, exclude), capacityCredits, nowWork,
                                     Min(credits, capacityCredits), r.value)
      ensures var width := if credits <= capacityCredits then credits else capacityCredits;
              r.Ok? ==> forall t: real :: r.value <= t < r.value + width || r.value <= t < r.value + 0.000000001 ==>
                          Occupancy(Existing(active, executing, exclude), t) + width <= capacityCredits
    {
      if credits < 0.0 { return Err(InvalidArgument); }
      if credits > 0.0 && capacityCredits == 0.0 { return Err(NoCapacity); }
      var width := Min(credits, capacityCredits);
      var items := Existing(active, executing, exclude);
      ExistingWellFormed(exclude);
      var candidates := Candidates(items, nowWork);
      for i := 0 to |candidates|
        invariant forall j :: 0 <= j < i ==> !Fits(items, capacityCredits, width, candidates[j])
      {
        BreakpointsDecideWindow(items, capacityCredits, width, candidates[i]);
        if FitsAtBreakpoints(items, capacityCredits, width, candidates[i]) {
          forall u: real | nowWork <= u < candidates[i] ensures !Fits(items, capacityCredits, width, u) {
            NoFitBefore(items, capacityCredits, width, nowWork, i, u);
          }
          assert candidates[i] in candidates;
          return Ok(candidates[i]);
        }
      }
      LastCandidateFits(items, capacityCredits, width, nowWork);
      assert false;
    }

    lemma ExistingWellFormed(exclude: Option<Key>)
      requires Tidy()
      ensures NonNegative(Existing(active, executing, exclude))
    {
      match exclude
      case None =>
      case Some(k) =>
        ChunksPop(active, k, 0.0);
        RunningPop(executing, k, 0.0);
    }

    // --- reserve ---

    /** Never over capacity, and `peak` is the larger of `before` and the busiest instant. */
    ghost predicate PlacedSafely(all: seq<Reservation>, before: real, peak: real) {
      && before <= peak <= capacityCredits
      && Bounded(all, peak)
      && (peak == before || Attains(all, peak))
    }

    /** One more chunk, seen as an addition to everything placed before it. */
    lemma {:induction false} PlacedStep(all: seq<Reservation>, chunk: Reservation, occupied: real, before: real,
                                        peak: real)
      requires chunk.credits >= 0.0 && PlacedSafely(all, before, peak)
      requires forall t: real :: ActiveAt(chunk, t) ==> Occupancy(all, t) <= occupied
      requires exists p: real :: ActiveAt(chunk, p) && Occupancy(all, p) == occupied
      requires occupied + chunk.credits <= capacityCredits
      ensures PlacedSafely(all + [chunk], before, Max(peak, occupied + chunk.credits))
    {
      var now := Max(peak, occupied + chunk.credits);
      forall t: real
        ensures Occupancy(all + [chunk], t) == Occupancy(all, t) + (if ActiveAt(chunk, t) then chunk.credits else 0.0)
      {
        OccupancyAppend(all, chunk, t);
      }
      if peak <= occupied + chunk.credits {
        var p: real :| ActiveAt(chunk, p) && Occupancy(all, p) == occupied;
        assert Occupancy(all + [chunk], p) == now;
      } else if peak != before {
        var t: real :| Occupancy(all, t) == peak;
        assert Occupancy(all + [chunk], t) >= now;
      }
    }

    /** Measuring the occupancy at the breakpoints gives the busiest instant of the new
        chunk's window, and the chunk still fits there. */
    lemma {:induction false} MeasuredWindow(items: seq<Reservation>, chunks: seq<Reservation>, chunk: Reservation,
                                            cursor: real, occupied: real)
      requires WellFormed(items) && WellFormed(chunks)
      requires forall c :: c in chunks ==> c.releasesAt <= cursor
      requires cursor <= chunk.startsAt
      requires chunk.releasesAt == chunk.startsAt + Duration(chunk.credits)
      requires Fits(items, capacityCredits, chunk.credits, chunk.startsAt)
      requires occupied == PeakOver(items + chunks, Breakpoints(items + chunks, chunk.startsAt, chunk.releasesAt))
      ensures forall t: real :: ActiveAt(chunk, t) ==> Occupancy(items + chunks, t) <= occupied
      ensures exists p: real :: ActiveAt(chunk, p) && Occupancy(items + chunks, p) == occupied
      ensures occupied + chunk.credits <= capacityCredits
    {
      var all := items + chunks;
      var points := Breakpoints(all, chunk.startsAt, chunk.releasesAt);
      forall t: real | ActiveAt(chunk, t) ensures Occupancy(all, t) <= occupied {
        PeakBoundsWindow(all, chunk.startsAt, chunk.releasesAt, t);
      }
      var p :| p in points && Occupancy(all, p) == occupied;
      assert ActiveAt(chunk, p) by { InnerStartsAre(all, chunk.startsAt, chunk.releasesAt); }
      NothingHeldAfter(chunks, p);
      OccupancyConcat(items, chunks, p);
    }

    /** The chunks placed so far: a greedy chain that ends at `cursor`, leaves `remaining`
        credits to place and keeps every instant within capacity. */
    ghost predicate PlacedSoFar(items: seq<Reservation>, key: Key, credits: real, nowWork: real,
                                chunks: seq<Reservation>, remaining: real, cursor: real,
                                before: real, peak: real)
    {
      && 0.0 <= remaining <= credits && remaining == credits - Credits(chunks)
      && cursor == (if chunks == [] then nowWork else chunks[|chunks| - 1].releasesAt)
      && WellFormed(chunks) && (forall c :: c in chunks ==> c.releasesAt <= cursor)
      && (chunks == [] ==> remaining == credits) && (credits == 0.0 ==> chunks == [])
      && GreedyChain(items, capacityCredits, key, credits, nowWork, chunks)
      && PlacedSafely(items + chunks, before, peak)
    }

    /** One turn of the placement loop: where the next chunk goes, and how busy its
        window already is. */
    method NextChunk(key: Key, credits: real, nowWork: real, remaining: real, cursor: real,
                     chunks: seq<Reservation>, ghost before: real)
      returns (chunk: Reservation, occupied: real)
      requires Tidy() && remaining > 0.0 && capacityCredits > 0.0
      requires PlacedSoFar(Temporal(), key, credits, nowWork, chunks, remaining, cursor,
                           before, peakReservedDecodeCredits)
      ensures chunk.credits == Min(remaining, capacityCredits) && Lasts(chunk, chunk.credits)
      ensures PlacedSoFar(Temporal(), key, credits, nowWork, chunks + [chunk], remaining - chunk.credits,
                          chunk.releasesAt, before, Max(peakReservedDecodeCredits, occupied + chunk.credits))
    {
      var chunkCredits := Min(remaining, capacityCredits);
      var found := AvailableAt(chunkCredits, cursor, None);
      var starts := found.value;
      var releases := starts + Duration(chunkCredits);
      var existing := Existing(active, executing, None) + chunks;
      occupied := PeakOver(existing, Breakpoints(existing, starts, releases));
      chunk := Reservation(key.0, key.1, chunkCredits, starts, releases);
      NextChunkPlaced(Temporal(), key, credits, nowWork, chunks, chunk, remaining, cursor, occupied, before,
                      peakReservedDecodeCredits);
    }

    lemma {:induction false} NextChunkPlaced(items: seq<Reservation>, key: Key, credits: real, nowWork: real,
                                             chunks: seq<Reservation>, chunk: Reservation, remaining: real,
                                             cursor: real, occupied: real, before: real, peak: real)
      requires WellFormed(items) && remaining > 0.0 && capacityCredits > 0.0
      requires PlacedSoFar(items, key, credits, nowWork, chunks, remaining, cursor, before, peak)
      requires NextInChain(items, capacityCredits, key, credits, nowWork, chunks, chunk)
      requires occupied == PeakOver(items + chunks, Breakpoints(items + chunks, chunk.startsAt, chunk.releasesAt))
      ensures PlacedSoFar(items, key, credits, nowWork, chunks + [chunk], remaining - chunk.credits,
                          chunk.releasesAt, before, Max(peak, occupied + chunk.credits))
    {
      MeasuredWindow(items, chunks, chunk, cursor, occupied);
      PlacedStep(items + chunks, chunk, occupied, before, peak);
      assert items + (chunks + [chunk]) == (items + chunks) + [chunk];
      CreditsAppend(chunks, chunk);
      assert (chunks + [chunk])[..|chunks|] == chunks;
    }

    /** The placement loop of `reserve`. */
    method PlaceChunks(key: Key, credits: real, nowWork: real) returns (chunks: seq<Reservation>)
      requires Tidy() && credits >= 0.0 && (credits > 0.0 ==> capacityCredits > 0.0)
      requires 0.0 <= peakReservedDecodeCredits <= capacityCredits && Bounded(Temporal(), peakReservedDecodeCredits)
      modifies this`peakReservedDecodeCredits
      ensures WellFormed(chunks) && Credits(chunks) == credits && (chunks == [] <==> credits == 0.0)
      ensures GreedyChain(Temporal(), capacityCredits, key, credits, nowWork, chunks)
      ensures forall x :: x in chunks ==> Lasts(x, x.credits)
      ensures PlacedSafely(Temporal() + chunks, old(peakReservedDecodeCredits), peakReservedDecodeCredits)
    {
      var remaining := credits;
      var cursor := nowWork;
      chunks := [];
      ghost var before := peakReservedDecodeCredits;
      assert Temporal() + chunks == Temporal();
      ghost var roundsLeft: nat := RoundBound(credits);
      while remaining > 0.0
        invariant PlacedSoFar(Temporal(), key, credits, nowWork, chunks, remaining, cursor,
                              before, peakReservedDecodeCredits)
        invariant Covers(roundsLeft, remaining)
        decreases roundsLeft
      {
        var reservation, occupied := NextChunk(key, credits, nowWork, remaining, cursor, chunks, before);
        OneRoundLess(roundsLeft, remaining, reservation.credits);
        peakReservedDecodeCredits := Max(peakReservedDecodeCredits, occupied + reservation.credits);
        chunks := chunks + [reservation];
        remaining := remaining - reservation.credits;
        cursor := reservation.releasesAt;
        roundsLeft := roundsLeft - 1;
      }
      ChainLasts(Temporal(), capacityCredits, key, credits, nowWork, chunks);
    }

    /** `n` rounds place all `remaining` credits. */
    ghost predicate Covers(n: nat, remaining: real) {
      remaining <= 0.0 || (n > 0 && Covers(n - 1, remaining - capacityCredits))
    }

    lemma OneRoundLess(n: nat, remaining: real, placed: real)
      requires remaining > 0.0 && Covers(n, remaining) && placed == Min(remaining, capacityCredits)
      ensures n > 0 && Covers(n - 1, remaining - placed)
    {
    }

    lemma {:induction false} EnoughRounds(n: nat, remaining: real)
      requires remaining <= n as real * capacityCredits
      ensures Covers(n, remaining)
    {
      if n > 0 { EnoughRounds(n - 1, remaining - capacityCredits); }
    }

    ghost function RoundBound(credits: real): (n: nat)
      requires credits >= 0.0 && (credits > 0.0 ==> capacityCredits > 0.0)
      ensures Covers(n, credits)
    {
      if credits == 0.0 then 0 else
        var q := credits / capacityCredits;
        var n := q.Floor + 1;
        ProductNonNegative(n as real - q, capacityCredits);
        EnoughRounds(n, credits);
        n
    }

    method Reserve(logicalRequestId: string, attemptIndex: int, credits: real, nowWork: real)
      returns (r: Result<Reservation>)
      requires Valid()
      modifies this
      ensures Valid() && executing == old(executing)
      ensures actualDecodeWork == old(actualDecodeWork)
      ensures reconciledCreditError == old(reconciledCreditError)
      ensures var key := (logicalRequestId, attemptIndex);
              && (r.Err? <==> credits < 0.0 || old(Has(active, key) || Has(executing, key))
                              || (credits > 0.0 && capacityCredits == 0.0))
              && (r.Err? ==> active == old(active) && reservedTotals == old(reservedTotals)
                             && peakReservedDecodeCredits == old(peakReservedDecodeCredits)
                             && openedCredits == old(openedCredits))
              && (r.Ok? ==>
                    && Has(active, key) && active == old(active) + [(key, Get(active, key))]
                    && Plan(old(Temporal()), capacityCredits, key, credits, nowWork, Get(active, key))
                    && r.value == Get(active, key)[0]
                    && (forall x :: x in Get(active, key) ==> Lasts(x, x.credits))
                    && reservedTotals == Put(old(reservedTotals), key, credits)
                    && PeakIs(old(peakReservedDecodeCredits))
                    && openedCredits == old(openedCredits) + credits - Owed(old(reservedTotals), key))
    {
      var key := (logicalRequestId, attemptIndex);
      if credits < 0.0 { return Err(InvalidArgument); }
      if Has(active, key) || Has(executing, key) { return Err(Duplicate); }
      if credits > 0.0 && capacityCredits == 0.0 { return Err(NoCapacity); }
      ghost var items := Temporal();
      ghost var before := peakReservedDecodeCredits;
      var chunks := PlaceChunks(key, credits, nowWork);
      assert items + [] == items;
      if chunks == [] {
        chunks := [Reservation(logicalRequestId, attemptIndex, 0.0, nowWork, nowWork + MIN_DURATION)];
        ZeroCreditsAddNothing(items, chunks[0], before, peakReservedDecodeCredits);
      }
      RecordPlan(key, chunks, credits, before);
      r := Ok(chunks[0]);
    }

    /** The two assignments that end `reserve`. */
    method RecordPlan(key: Key, chunks: seq<Reservation>, credits: real, ghost before: real)
      requires Tidy() && KeysAgree(active, executing, reservedTotals)
      requires !Has(active, key) && !Has(executing, key) && chunks != [] && WellFormed(chunks)
      requires 0.0 <= before && PlacedSafely(Temporal() + chunks, before, peakReservedDecodeCredits)
      requires Total(reservedTotals) + actualDecodeWork - reconciledCreditError == openedCredits
      modifies this`active, this`reservedTotals, this`openedCredits
      ensures Valid() && PeakIs(before)
      ensures active == old(active) + [(key, chunks)] && Has(active, key) && Get(active, key) == chunks
      ensures reservedTotals == Put(old(reservedTotals), key, credits)
      ensures openedCredits == old(openedCredits) + credits - Owed(old(reservedTotals), key)
    {
      PutAbsent(active, key, chunks);
      NewPlanKeys(active, executing, reservedTotals, key, chunks, credits);
      NewPlanTimeline(active, executing, key, chunks, peakReservedDecodeCredits);
      TotalPut(reservedTotals, key, credits);
      openedCredits := openedCredits + credits - Owed(reservedTotals, key);
      active := Put(active, key, chunks);
      reservedTotals := Put(reservedTotals, key, credits);
    }

    // --- activate and settle ---

    /** Turn a plan into a real execution over `[startsAt, finishesAt)`.  Every other plan
        that overlaps is dropped from the timeline and keeps its debt. */
    method Activate(logicalRequestId: string, attemptIndex: int, credits: real, startsAt: real, finishesAt: real)
      returns (r: Result<()>, ghost planned: seq<Reservation>, ghost reservedPeak: real)
      requires Valid()
      modifies this
      ensures Valid()
      ensures actualDecodeWork == old(actualDecodeWork) && reconciledCreditError == old(reconciledCreditError)
      ensures var key := (logicalRequestId, attemptIndex);
              r.Err? <==>
                || credits < 0.0 || finishesAt < startsAt || old(Has(executing, key))
                || !RoomFor(old(Running(executing)), capacityCredits, Min(credits, capacityCredits), startsAt, finishesAt)
                || (old(!Has(active, key)) && credits > 0.0 && capacityCredits == 0.0)
      ensures r.Err? ==>
                && active == old(active) && executing == old(executing) && reservedTotals == old(reservedTotals)
                && peakReservedDecodeCredits == old(peakReservedDecodeCredits) && openedCredits == old(openedCredits)
      ensures var key := (logicalRequestId, attemptIndex);
              r.Ok? ==>
                && executing == old(executing) + [(key, Reservation(logicalRequestId, attemptIndex,
                                                   Min(credits, capacityCredits), startsAt, finishesAt))]
                && active == KeepClear(Pop(old(active), key), startsAt, finishesAt)
                && peakReservedDecodeCredits
                   == Max(reservedPeak, BusiestOver(old(Running(executing)), startsAt, finishesAt) + Min(credits, capacityCredits))
                && (if old(Has(active, key)) then reservedPeak == old(peakReservedDecodeCredits)
                    else
                      && Plan(old(Temporal()), capacityCredits, key, credits, startsAt, planned)
                      && LargerOf(old(peakReservedDecodeCredits),
                                  Chunks(old(active) + [(key, planned)]) + Running(old(executing)), reservedPeak))
                && (if old(Has(active, key))
                    then reservedTotals == old(reservedTotals) && openedCredits == old(openedCredits)
                    else reservedTotals == Put(old(reservedTotals), key, credits)
                         && openedCredits == old(openedCredits) + credits - Owed(old(reservedTotals), key))
    {
      var key := (logicalRequestId, attemptIndex);
      hide Plan; hide LargerOf; hide KeepClear; hide BusiestOver; hide RoomFor; hide Occupancy; hide Bounded; hide Attains;
      hide KeysAgree;
      planned, reservedPeak := [], peakReservedDecodeCredits;
      if credits < 0.0 || finishesAt < startsAt { r := Err(InvalidArgument); return; }
      if Has(executing, key) { r := Err(Duplicate); return; }
      var execution := Reservation(logicalRequestId, attemptIndex, Min(credits, capacityCredits), startsAt, finishesAt);
      var running := Running(executing);
      var occupied := BusiestOver(running, startsAt, finishesAt);
      MeasuredExecution(running, startsAt, finishesAt, execution.credits, occupied);
      if occupied + execution.credits > capacityCredits { r := Err(ExceedsCapacity); return; }
      if !Has(active, key) {
        var reserved := Reserve(logicalRequestId, attemptIndex, credits, startsAt);
        if reserved.Err? { r := Err(reserved.error); return; }
        planned, reservedPeak := Get(active, key), peakReservedDecodeCredits;
        PopAppended(old(active), key, planned);
      }
      Execute(key, execution, occupied);
      r := Ok(());
    }

    /** The updates that end `activate`: retire the plan, drop the overlapped ones, run. */
    method Execute(key: Key, execution: Reservation, occupied: real)
      requires Valid() && Has(active, key)
      requires execution.credits >= 0.0 && execution.startsAt <= execution.releasesAt
      requires forall t: real :: ActiveAt(execution, t) ==> Occupancy(Running(executing), t) <= occupied
      requires 0.0 <= occupied && occupied + execution.credits <= capacityCredits
      modifies this`active, this`executing, this`peakReservedDecodeCredits
      ensures Valid()
      ensures executing == old(executing) + [(key, execution)]
      ensures active == KeepClear(Pop(old(active), key), execution.startsAt, execution.releasesAt)
      ensures peakReservedDecodeCredits == Max(old(peakReservedDecodeCredits), occupied + execution.credits)
    {
      ExecutionKeys(active, executing, reservedTotals, key, execution);
      ExecutionTimeline(active, executing, key, execution, occupied, peakReservedDecodeCredits);
      PutAbsent(executing, key, execution);
      active := KeepClear(Pop(active, key), execution.startsAt, execution.releasesAt);
      executing := Put(executing, key, execution);
      peakReservedDecodeCredits := Max(peakReservedDecodeCredits, occupied + execution.credits);
    }

    /** Close an attempt: its debt leaves the books and the difference to the work it
        really did is recorded as reconciliation error. */
    method Settle(logicalRequestId: string, attemptIndex: int, actualWork: real) returns (r: Result<()>)
      requires Valid()
      modifies this
      ensures Valid() && openedCredits == old(openedCredits)
      ensures peakReservedDecodeCredits == old(peakReservedDecodeCredits)
      ensures r.Err? <==> old(!Has(active, (logicalRequestId, attemptIndex))
                              && !Has(executing, (logicalRequestId, attemptIndex)))
      ensures r.Err? ==> unchanged(this)
      ensures var key := (logicalRequestId, attemptIndex);
              r.Ok? ==>
                && active == Pop(old(active), key) && executing == Pop(old(executing), key)
                && reservedTotals == Pop(old(reservedTotals), key)
                && actualDecodeWork == old(actualDecodeWork) + actualWork
                && reconciledCreditError == old(reconciledCreditError) + actualWork - Owed(old(reservedTotals), key)
    {
      var key := (logicalRequestId, attemptIndex);
      if !Has(active, key) && !Has(executing, key) { return Err(UnknownKey); }
      SettledKeys(active, executing, reservedTotals, key);
      SettledTimeline(active, executing, key, peakReservedDecodeCredits);
      TotalPop(reservedTotals, key);
      var reservedTotal := Get(reservedTotals, key);
      active := Pop(active, key);
      executing := Pop(executing, key);
      reservedTotals := Pop(reservedTotals, key);
      actualDecodeWork := actualDecodeWork + actualWork;
      reconciledCreditError := reconciledCreditError + actualWork - reservedTotal;
      r := Ok(());
    }

    lemma ZeroCreditsAddNothing(items: seq<Reservation>, r: Reservation, before: real, peak: real)
      requires r.credits == 0.0 && PlacedSafely(items, before, peak)
      ensures PlacedSafely(items + [r], before, peak)
    {
      forall t: real ensures Occupancy(items + [r], t) == Occupancy(items, t) {
        OccupancyAppend(items, r, t);
      }
      SameOccupancy(items, items + [r], peak);
    }
  }

  lemma {:induction false} SameOccupancy(a: seq<Reservation>, b: seq<Reservation>, level: real)
    requires forall t: real :: Occupancy(b, t) == Occupancy(a, t)
    ensures Bounded(a, level) ==> Bounded(b, level)
    ensures Attains(a, level) ==> Attains(b, level)
  {
    if Attains(a, level) {
      var t: real :| Occupancy(a, t) == level;
      assert Occupancy(b, t) == level;
    }
  }

  lemma {:induction false} NoEmptyPlanAppend(plans: Dict<Key, seq<Reservation>>, key: Key, chunks: seq<Reservation>)
    requires NoEmptyPlan(plans) && chunks != []
    ensures NoEmptyPlan(plans + [(key, chunks)])
  {
    if plans != [] {
      NoEmptyPlanAppend(plans[1..], key, chunks);
      assert (plans + [(key, chunks)])[1..] == plans[1..] + [(key, chunks)];
    }
  }

  lemma {:induction false} NewPlanKeys(active: Dict<Key, seq<Reservation>>, executing: Dict<Key, Reservation>,
                                       totals: Dict<Key, real>, key: Key, chunks: seq<Reservation>, credits: real)
    requires KeysAgree(active, executing, totals) && !Has(active, key) && !Has(executing, key) && chunks != []
    ensures KeysAgree(Put(active, key, chunks), executing, Put(totals, key, credits))
    ensures Has(Put(active, key, chunks), key) && Get(Put(active, key, chunks), key) == chunks
  {
    PutKeys(active, key, chunks);
    PutKeys(totals, key, credits);
    GetPut(active, key, chunks, key);
    PutAbsent(active, key, chunks);
    NoEmptyPlanAppend(active, key, chunks);
    forall k | Has(Put(active, key, chunks), k)
      ensures !Has(executing, k) && Has(Put(totals, key, credits), k)
    {
      assert Has(active, k) || k == key;
    }
    forall k | Has(executing, k) ensures Has(Put(totals, key, credits), k) {
      assert Has(totals, k);
    }
  }

  lemma {:induction false} NewPlanTimeline(active: Dict<Key, seq<Reservation>>, executing: Dict<Key, Reservation>,
                                           key: Key, chunks: seq<Reservation>, level: real)
    requires !Has(active, key)
    requires WellFormed(Chunks(active)) && WellFormed(chunks)
    ensures WellFormed(Chunks(Put(active, key, chunks)))
    ensures var unsorted := Chunks(active) + Running(executing) + chunks;
            var stored := Chunks(Put(active, key, chunks)) + Running(executing);
            && (Bounded(unsorted, level) ==> Bounded(stored, level))
            && (Attains(unsorted, level) ==> Attains(stored, level))
  {
    var before, running := Chunks(active), Running(executing);
    PutAbsent(active, key, chunks);
    ChunksAppend(active, key, chunks);
    forall t: real ensures Occupancy(before + chunks + running, t) == Occupancy(before + running + chunks, t) {
      OccupancyConcat(before + chunks, running, t);
      OccupancyConcat(before, chunks, t);
      OccupancyConcat(before + running, chunks, t);
      OccupancyConcat(before, running, t);
    }
    SameOccupancy(before + running + chunks, before + chunks + running, level);
  }

  /** `width` more credits fit next to what is running, from the start to the finish. */
  ghost predicate RoomFor(running: seq<Reservation>, capacity: real, width: real, from: real, until: real) {
    && Occupancy(running, from) + width <= capacity
    && forall t: real :: from <= t < until ==> Occupancy(running, t) + width <= capacity
  }

  lemma {:induction false} MeasuredExecution(running: seq<Reservation>, from: real, until: real, width: real,
                                             occupied: real)
    requires WellFormed(running) && from <= until
    requires occupied == BusiestOver(running, from, until)
    ensures 0.0 <= occupied
    ensures forall t: real :: from <= t < until ==> Occupancy(running, t) <= occupied
    ensures forall capacity :: occupied + width <= capacity <==> RoomFor(running, capacity, width, from, until)
  {
    var points := Breakpoints(running, from, until);
    assert points[0] in points;
    OccupancyNonNegative(running, from);
    forall t: real | from <= t < until ensures Occupancy(running, t) <= occupied {
      PeakBoundsWindow(running, from, until, t);
    }
    var p :| p in points && Occupancy(running, p) == occupied;
    InnerStartsAre(running, from, until);
    assert p == from || from <= p < until;
  }

  lemma {:induction false} PopAppended(plans: Dict<Key, seq<Reservation>>, key: Key, chunks: seq<Reservation>)
    requires !Has(plans, key)
    ensures Pop(plans + [(key, chunks)], key) == plans == Pop(plans, key)
  {
    if plans == [] {
    } else {
      PopAppended(plans[1..], key, chunks);
      assert (plans + [(key, chunks)])[1..] == plans[1..] + [(key, chunks)];
    }
  }

  lemma {:induction false} NoEmptyPlanPop(plans: Dict<Key, seq<Reservation>>, key: Key)
    requires NoEmptyPlan(plans)
    ensures NoEmptyPlan(Pop(plans, key))
  {
    if plans != [] && plans[0].0 != key {
      NoEmptyPlanPop(plans[1..], key);
      assert Pop(plans, key)[1..] == Pop(plans[1..], key);
    }
  }

  lemma {:induction false} ExecutionKeys(active: Dict<Key, seq<Reservation>>, executing: Dict<Key, Reservation>,
                                         totals: Dict<Key, real>, key: Key, execution: Reservation)
    requires KeysAgree(active, executing, totals) && Has(active, key)
    ensures KeysAgree(KeepClear(Pop(active, key), execution.startsAt, execution.releasesAt),
                      Put(executing, key, execution), totals)
  {
    var popped := Pop(active, key);
    var kept := KeepClear(popped, execution.startsAt, execution.releasesAt);
    PopKeys(active, key);
    NoEmptyPlanPop(active, key);
    KeepClearKeys(popped, execution.startsAt, execution.releasesAt);
    PutKeys(executing, key, execution);
    forall k | Has(kept, k) ensures !Has(Put(executing, key, execution), k) && Has(totals, k) {
      assert Has(popped, k);
      assert Has(active, k) && k != key;
    }
    forall k | Has(Put(executing, key, execution), k) ensures Has(totals, k) {
      assert Has(executing, k) || k == key;
    }
  }

  lemma {:induction false} ExecutionTimeline(active: Dict<Key, seq<Reservation>>, executing: Dict<Key, Reservation>,
                                             key: Key, execution: Reservation, occupied: real, peak: real)
    requires WellFormed(Chunks(active)) && WellFormed(Running(executing)) && !Has(executing, key)
    requires execution.credits >= 0.0 && execution.startsAt <= execution.releasesAt
    requires Bounded(Chunks(active) + Running(executing), peak)
    requires forall t: real :: ActiveAt(execution, t) ==> Occupancy(Running(executing), t) <= occupied
    ensures var kept := KeepClear(Pop(active, key), execution.startsAt, execution.releasesAt);
            var running := Put(executing, key, execution);
            && WellFormed(Chunks(kept)) && WellFormed(Running(running))
            && Bounded(Chunks(kept) + Running(running), Max(peak, occupied + execution.credits))
  {
    var popped := Pop(active, key);
    var kept := KeepClear(popped, execution.startsAt, execution.releasesAt);
    var before, running := Running(executing), Running(Put(executing, key, execution));
    PutAbsent(executing, key, execution);
    RunningAppend(executing, key, execution);
    assert running == before + [execution];
    ChunksPop(active, key, 0.0);
    KeepClearClears(popped, execution.startsAt, execution.releasesAt, 0.0);
    forall t: real ensures Occupancy(Chunks(kept) + running, t) <= Max(peak, occupied + execution.credits) {
      ChunksPop(active, key, t);
      KeepClearClears(popped, execution.startsAt, execution.releasesAt, t);
      OccupancyConcat(Chunks(kept), running, t);
      OccupancyAppend(before, execution, t);
      OccupancyConcat(Chunks(active), before, t);
      assert Occupancy(Chunks(active) + before, t) <= peak;
    }
  }

  lemma {:induction false} SettledKeys(active: Dict<Key, seq<Reservation>>, executing: Dict<Key, Reservation>,
                                       totals: Dict<Key, real>, key: Key)
    requires KeysAgree(active, executing, totals)
    ensures KeysAgree(Pop(active, key), Pop(executing, key), Pop(totals, key))
  {
    PopKeys(active, key);
    PopKeys(executing, key);
    PopKeys(totals, key);
    NoEmptyPlanPop(active, key);
    forall k | Has(Pop(active, key), k) ensures !Has(Pop(executing, key), k) && Has(Pop(totals, key), k) {
      assert Has(active, k) && k != key;
    }
    forall k | Has(Pop(executing, key), k) ensures Has(Pop(totals, key), k) {
      assert Has(executing, k) && k != key;
    }
  }

  lemma {:induction false} SettledTimeline(active: Dict<Key, seq<Reservation>>, executing: Dict<Key, Reservation>,
                                           key: Key, peak: real)
    requires WellFormed(Chunks(active)) && WellFormed(Running(executing))
    requires Bounded(Chunks(active) + Running(executing), peak)
    ensures WellFormed(Chunks(Pop(active, key))) && WellFormed(Running(Pop(executing, key)))
    ensures Bounded(Chunks(Pop(active, key)) + Running(Pop(executing, key)), peak)
  {
    ChunksPop(active, key, 0.0);
    RunningPop(executing, key, 0.0);
    forall t: real ensures Occupancy(Chunks(Pop(active, key)) + Running(Pop(executing, key)), t) <= peak {
      ChunksPop(active, key, t);
      RunningPop(executing, key, t);
      OccupancyConcat(Chunks(active), Running(executing), t);
      OccupancyConcat(Chunks(Pop(active, key)), Running(Pop(executing, key)), t);
      assert Occupancy(Chunks(active) + Running(executing), t) <= peak;
    }
  }

  // --- a plan is fully determined -------------------------------------------

  lemma NextIsUnique(items: seq<Reservation>, capacity: real, key: Key, credits: real, now: real,
                     done: seq<Reservation>, x: Reservation, y: Reservation)
    requires NextInChain(items, capacity, key, credits, now, done, x)
    requires NextInChain(items, capacity, key, credits, now, done, y)
    ensures x == y
  {
  }

  lemma {:induction false} ChainsShareTheirPrefix(items: seq<Reservation>, capacity: real, key: Key, credits: real,
                                                  now: real, a: seq<Reservation>, b: seq<Reservation>)
    requires GreedyChain(items, capacity, key, credits, now, a)
    requires GreedyChain(items, capacity, key, credits, now, b)
    requires |a| <= |b|
    ensures a == b[..|a|]
    decreases |a| + |b|
  {
    hide NextInChain; hide GreedyChain;
    if a != [] || b != [] { ChainUnfolds(items, capacity, key, credits, now, if |a| < |b| then b else a); }
    if |a| < |b| {
      var shorter := b[..|b| - 1];
      ChainsShareTheirPrefix(items, capacity, key, credits, now, a, shorter);
      assert shorter[..|a|] == b[..|a|];
    } else if a != [] {
      var n := |a| - 1;
      ChainUnfolds(items, capacity, key, credits, now, b);
      ChainsShareTheirPrefix(items, capacity, key, credits, now, a[..n], b[..n]);
      assert a[..n] == b[..n][..n] == b[..n];
      NextIsUnique(items, capacity, key, credits, now, a[..n], a[n], b[n]);
      assert a == a[..n] + [a[n]] && b == b[..n] + [b[n]] && b[..|a|] == b;
    }
  }

  lemma {:induction false} ChainUnfolds(items: seq<Reservation>, capacity: real, key: Key, credits: real, now: real,
                                        chunks: seq<Reservation>)
    requires GreedyChain(items, capacity, key, credits, now, chunks) && chunks != []
    ensures var n := |chunks| - 1;
            && GreedyChain(items, capacity, key, credits, now, chunks[..n])
            && NextInChain(items, capacity, key, credits, now, chunks[..n], chunks[n])
  {
    hide NextInChain;
  }

  lemma {:induction false} ChainCreditsGrow(items: seq<Reservation>, capacity: real, key: Key, credits: real,
                                            now: real, chunks: seq<Reservation>, n: nat)
    requires GreedyChain(items, capacity, key, credits, now, chunks) && n < |chunks|
    ensures Credits(chunks[..n]) < Credits(chunks)
  {
    var done, last := chunks[..|chunks| - 1], chunks[|chunks| - 1];
    CreditsAppend(done, last);
    assert chunks == done + [last];
    if n < |done| {
      ChainCreditsGrow(items, capacity, key, credits, now, done, n);
      assert done[..n] == chunks[..n];
    }
  }

  /** The plan `reserve` records is the only one its contract allows. */
  lemma PlanIsUnique(items: seq<Reservation>, capacity: real, key: Key, credits: real, now: real,
                     a: seq<Reservation>, b: seq<Reservation>)
    requires Plan(items, capacity, key, credits, now, a) && Plan(items, capacity, key, credits, now, b)
    ensures a == b
  {
    if credits != 0.0 {
      if |a| <= |b| {
        ChainsShareTheirPrefix(items, capacity, key, credits, now, a, b);
        if |a| < |b| { ChainCreditsGrow(items, capacity, key, credits, now, b, |a|); }
      } else {
        ChainsShareTheirPrefix(items, capacity, key, credits, now, b, a);
        ChainCreditsGrow(items, capacity, key, credits, now, a, |b|);
      }
    }
  }
}
