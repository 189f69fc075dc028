/** How long decode reservations last, what a plan is made of, and which of them a later
    question sees (src/prefill_cache_sim/m12_decode.py).
 */
module ReservationLengths {
  import opened Options
  import opened OrderedDicts
  import opened Timeline
  import opened DecodeLedger

  lemma {:induction false} NextSize(items: seq<Reservation>, capacity: real, key: Key, credits: real, now: real,
                                    done: seq<Reservation>, next: Reservation)
    requires NextInChain(items, capacity, key, credits, now, done, next)
    ensures 0.0 < next.credits <= capacity && Credits(done + [next]) == Credits(done) + next.credits <= credits
    ensures Credits(done + [next]) < credits ==> next.credits == capacity
    ensures Credits(done) < credits
  {
    hide EarliestFit;
    CreditsAppend(done, next);
  }

  lemma {:induction false} OneMoreFull(chunks: seq<Reservation>, next: Reservation, capacity: real)
    requires AllFull(chunks, capacity) && next.credits == capacity
    requires Credits(chunks + [next]) == Credits(chunks) + next.credits
    ensures AllFull(chunks + [next], capacity)
  {
    hide Credits;
    assert (|chunks| + 1) as real * capacity == |chunks| as real * capacity + capacity;
  }

  ghost predicate AllFull(chunks: seq<Reservation>, capacity: real) {
    (forall r :: r in chunks ==> r.credits == capacity) && Credits(chunks) == |chunks| as real * capacity
  }

  /** A chain that has not placed everything yet has filled the lane with every chunk. */
  lemma {:induction false} ChainSizes(items: seq<Reservation>, capacity: real, key: Key, credits: real, now: real,
                                      chunks: seq<Reservation>)
    requires GreedyChain(items, capacity, key, credits, now, chunks)
    ensures Credits(chunks) < credits ==> AllFull(chunks, capacity)
    decreases |chunks|
  {
    hide NextInChain; hide AllFull; hide Credits;
    if chunks == [] {
      assert AllFull([], capacity) by { NothingIsFull(capacity); }
    } else {
      var done, last := chunks[..|chunks| - 1], chunks[|chunks| - 1];
      assert chunks == done + [last];
      ChainSizes(items, capacity, key, credits, now, done);
      NextSize(items, capacity, key, credits, now, done, last);
      if Credits(chunks) < credits { OneMoreFull(done, last, capacity); }
    }
  }

  lemma NothingIsFull(capacity: real)
    ensures AllFull([], capacity) && Credits([]) == 0.0
  {
  }

  /** All chunks but the last take the whole lane, and together they hold exactly the credits. */
  lemma PlanSizes(items: seq<Reservation>, capacity: real, key: Key, credits: real, now: real,
                  chunks: seq<Reservation>)
    requires Plan(items, capacity, key, credits, now, chunks) && credits > 0.0
    ensures chunks != []
    ensures var full := |chunks| - 1;
            && (forall r :: r in chunks[..full] ==> r.credits == capacity)
            && 0.0 < chunks[full].credits <= capacity
            && full as real * capacity + chunks[full].credits == credits
  {
    hide NextInChain; hide Credits;
    var done, last := chunks[..|chunks| - 1], chunks[|chunks| - 1];
    assert chunks == done + [last];
    NextSize(items, capacity, key, credits, now, done, last);
    ChainSizes(items, capacity, key, credits, now, done);
  }

  lemma NothingInTheWay(capacity: real, now: real, width: real, t: real)
    requires EarliestFit([], capacity, now, width, t) && width <= capacity
    ensures t == now
  {
    assert forall s: real :: Occupancy([], s) == 0.0;
    assert Fits([], capacity, width, now);
  }

  /** Each chunk starts where the one before ends. */
  ghost predicate Gapless(chunks: seq<Reservation>, now: real) {
    && (chunks != [] ==> chunks[0].startsAt == now)
    && forall i :: 0 < i < |chunks| ==> chunks[i].startsAt == chunks[i - 1].releasesAt
  }

  lemma GaplessMore(done: seq<Reservation>, next: Reservation, now: real)
    ensures Gapless(done + [next], now)
            <==> Gapless(done, now) && next.startsAt == if done == [] then now else done[|done| - 1].releasesAt
  {
    var all := done + [next];
    assert all[|done|] == next && forall i :: 0 <= i < |done| ==> all[i] == done[i];
    if Gapless(all, now) {
      assert forall i :: 0 < i < |done| ==> done[i].startsAt == done[i - 1].releasesAt by {
        forall i | 0 < i < |done| ensures done[i].startsAt == done[i - 1].releasesAt {
          assert all[i] == done[i] && all[i - 1] == done[i - 1];
        }
      }
    }
  }

  lemma {:induction false} IdleChainIsGapless(capacity: real, key: Key, credits: real, now: real, chunks: seq<Reservation>)
    requires GreedyChain([], capacity, key, credits, now, chunks)
    ensures Gapless(chunks, now)
    decreases |chunks|
  {
    hide EarliestFit; hide Gapless;
    if chunks == [] {
      assert Gapless([], now) by { NoGap(now); }
    } else {
      var done, last := chunks[..|chunks| - 1], chunks[|chunks| - 1];
      assert chunks == done + [last];
      IdleChainIsGapless(capacity, key, credits, now, done);
      NothingInTheWay(capacity, if done == [] then now else done[|done| - 1].releasesAt, last.credits, last.startsAt);
      GaplessMore(done, last, now);
    }
  }

  lemma NoGap(now: real)
    ensures Gapless([], now)
  {
  }

  lemma {:induction false} GaplessEnds(chunks: seq<Reservation>, now: real)
    requires Gapless(chunks, now) && forall r :: r in chunks ==> r.releasesAt - r.startsAt == r.credits
    ensures chunks != [] ==> chunks[|chunks| - 1].releasesAt == now + Credits(chunks)
    decreases |chunks|
  {
    hide Gapless; hide Credits;
    if chunks == [] {
    } else {
      var done, last := chunks[..|chunks| - 1], chunks[|chunks| - 1];
      assert chunks == done + [last];
      assert Credits([]) == 0.0 by { NothingIsFull(0.0); }
      GaplessMore(done, last, now);
      CreditsAppend(done, last);
      GaplessEnds(done, now);
    }
  }

  /** An idle ledger serves a request at once and without gaps: however many chunks it takes,
      `credits` work units later it is over. */
  lemma IdlePlanEnds(capacity: real, key: Key, credits: real, now: real, chunks: seq<Reservation>)
    requires Plan([], capacity, key, credits, now, chunks) && credits > 0.0
    requires chunks[|chunks| - 1].credits >= 0.000000001
    ensures Gapless(chunks, now) && chunks[|chunks| - 1].releasesAt == now + credits
  {
    hide NextInChain; hide Gapless;
    PlanSizes([], capacity, key, credits, now, chunks);
    ChunksLast([], capacity, key, credits, now, chunks);
    IdleChainIsGapless(capacity, key, credits, now, chunks);
    forall r | r in chunks ensures r.releasesAt - r.startsAt == r.credits {
      var full := |chunks| - 1;
      assert chunks == chunks[..full] + [chunks[full]];
      assert r in chunks[..full] || r == chunks[full];
      assert Lasts(r, r.credits);
    }
    GaplessEnds(chunks, now);
  }

  lemma {:induction false} OneReservation(r: Reservation, t: real)
    ensures Occupancy([r], t) == if r.startsAt <= t < r.releasesAt then r.credits else 0.0
  {
    assert Occupancy([r][1..], t) == 0.0;
  }

  lemma OneChunk(capacity: real, key: Key, now: real, chunks: seq<Reservation>)
    requires Plan([], capacity, key, capacity, now, chunks) && capacity > 0.0
    ensures |chunks| == 1 && chunks[0].credits == capacity
  {
    hide Plan;
    PlanSizes([], capacity, key, capacity, now, chunks);
    if |chunks| > 1 { AtLeastOne(|chunks| - 1, capacity); }
  }

  lemma AtLeastOne(n: nat, x: real)
    requires n >= 1 && x > 0.0
    ensures n as real * x >= x
  {
    ProductNonNegative((n - 1) as real, x);
    assert n as real * x == (n - 1) as real * x + x;
  }

  /** A reservation that takes the whole lane of `capacity` holds it for `capacity` work units:
      a question asked at `now` is answered with its end, whatever width is asked for. */
  lemma FullLaneIsBusyUntilItsEnd(capacity: real, key: Key, now: real, chunks: seq<Reservation>, width: real, t: real)
    requires capacity >= 0.000000001 && 0.0 < width <= capacity
    requires Plan([], capacity, key, capacity, now, chunks)
    requires EarliestFit(Existing([(key, chunks)], [], None), capacity, now, width, t)
    ensures t == now + capacity
  {
    hide Plan; hide Gapless; hide Occupancy;
    var items := Existing([(key, chunks)], [], None);
    OneChunk(capacity, key, now, chunks);
    IdlePlanEnds(capacity, key, capacity, now, chunks);
    assert chunks[0].startsAt == now by { StartsNow(chunks, now); }
    assert Chunks([(key, chunks)]) == chunks + Chunks([]);
    assert items == [chunks[0]];
    forall s: real ensures Occupancy(items, s) == if now <= s < now + capacity then capacity else 0.0 {
      OneReservation(chunks[0], s);
    }
    assert Fits(items, capacity, width, now + capacity);
    InWindow(items, capacity, width, t);
  }

  lemma StartsNow(chunks: seq<Reservation>, now: real)
    requires Gapless(chunks, now) && chunks != []
    ensures chunks[0].startsAt == now
  {
  }

  lemma {:induction false} InWindow(items: seq<Reservation>, capacity: real, width: real, t: real)
    requires Fits(items, capacity, width, t)
    ensures Occupancy(items, t) + width <= capacity
  {
    assert t < t + Duration(width);
  }

  // --- what a question sees -------------------------------------------------

  lemma {:induction false} ChunksConcat(a: Dict<Key, seq<Reservation>>, b: Dict<Key, seq<Reservation>>)
    ensures Chunks(a + b) == Chunks(a) + Chunks(b)
  {
    if a == [] {
      assert a + b == b;
    } else {
      assert (a + b)[1..] == a[1..] + b;
      ChunksConcat(a[1..], b);
    }
  }

  lemma {:induction false} RunningConcat(a: Dict<Key, Reservation>, b: Dict<Key, Reservation>)
    ensures Running(a + b) == Running(a) + Running(b)
  {
    if a == [] {
      assert a + b == b;
    } else {
      assert (a + b)[1..] == a[1..] + b;
      RunningConcat(a[1..], b);
    }
  }

  lemma {:induction false} PopFromMiddle<V>(a: Dict<Key, V>, k: Key, v: V, b: Dict<Key, V>)
    requires !Has(a, k)
    ensures Pop(a + [(k, v)] + b, k) == a + b
  {
    var d := a + [(k, v)] + b;
    if a == [] {
      assert d[1..] == b;
    } else {
      assert d[1..] == a[1..] + [(k, v)] + b;
      PopFromMiddle(a[1..], k, v, b);
    }
  }

  /** A question that excludes a planned key is answered as if that plan had never been made. */
  lemma {:induction false} ExcludedPlanIsUnseen(a: Dict<Key, seq<Reservation>>, k: Key, chunks: seq<Reservation>,
                                                b: Dict<Key, seq<Reservation>>, executing: Dict<Key, Reservation>)
    requires !Has(a, k) && !Has(executing, k)
    ensures Existing(a + [(k, chunks)] + b, executing, Some(k)) == Existing(a + b, executing, None)
  {
    PopFromMiddle(a, k, chunks, b);
    PopNothing(executing, k);
  }

  /** So is one that excludes an executing key. */
  lemma {:induction false} ExcludedExecutionIsUnseen(active: Dict<Key, seq<Reservation>>, a: Dict<Key, Reservation>,
                                                     k: Key, r: Reservation, b: Dict<Key, Reservation>)
    requires !Has(active, k) && !Has(a, k)
    ensures Existing(active, a + [(k, r)] + b, Some(k)) == Existing(active, a + b, None)
  {
    PopFromMiddle(a, k, r, b);
    PopNothing(active, k);
  }

  lemma {:induction false} PopNothing<V>(d: Dict<Key, V>, k: Key)
    requires !Has(d, k)
    ensures Pop(d, k) == d
  {
    if d != [] { PopNothing(d[1..], k); }
  }

  /** Without an exclusion every chunk and every execution counts. */
  lemma {:induction false} EveryReservationCounts(a: Dict<Key, seq<Reservation>>, k: Key, chunks: seq<Reservation>,
                                                  b: Dict<Key, seq<Reservation>>, e: Dict<Key, Reservation>, x: Key,
                                                  r: Reservation, f: Dict<Key, Reservation>, t: real)
    ensures Occupancy(Existing(a + [(k, chunks)] + b, e + [(x, r)] + f, None), t)
            == Occupancy(Existing(a + b, e + f, None), t) + Occupancy(chunks, t)
               + (if r.startsAt <= t < r.releasesAt then r.credits else 0.0)
  {
    ChunksConcat(a + [(k, chunks)], b);
    ChunksConcat(a, [(k, chunks)]);
    ChunksConcat(a, b);
    RunningConcat(e + [(x, r)], f);
    RunningConcat(e, [(x, r)]);
    RunningConcat(e, f);
    assert Chunks([(k, chunks)]) == chunks by { assert Chunks([(k, chunks)]) == chunks + Chunks([]); }
    assert Running([(x, r)]) == [r] by { assert Running([(x, r)]) == [r] + Running([]); }
    OccupancyConcat(Chunks(a) + chunks + Chunks(b), Running(e) + [r] + Running(f), t);
    OccupancyConcat(Chunks(a) + chunks, Chunks(b), t);
    OccupancyConcat(Chunks(a), chunks, t);
    OccupancyConcat(Running(e) + [r], Running(f), t);
    OccupancyAppend(Running(e), r, t);
    OccupancyConcat(Chunks(a) + Chunks(b), Running(e) + Running(f), t);
    OccupancyConcat(Chunks(a), Chunks(b), t);
    OccupancyConcat(Running(e), Running(f), t);
  }

  // --- what an execution drops ----------------------------------------------

  ghost predicate SharesInstant(r: Reservation, from: real, until: real) {
    exists t: real :: from <= t < until && ActiveAt(r, t)
  }

  /** A plan is in the way of an execution exactly if they share an instant. */
  lemma OverlapIsSharedInstant(chunks: seq<Reservation>, from: real, until: real)
    requires from < until && forall r :: r in chunks ==> r.startsAt < r.releasesAt
    ensures Overlaps(chunks, from, until) <==> exists r :: r in chunks && SharesInstant(r, from, until)
  {
    if Overlaps(chunks, from, until) {
      var i :| 0 <= i < |chunks| && chunks[i].startsAt < until && from < chunks[i].releasesAt;
      var t := if from >= chunks[i].startsAt then from else chunks[i].startsAt;
      assert chunks[i] in chunks && ActiveAt(chunks[i], t);
    }
    if r :| r in chunks && SharesInstant(r, from, until) {
      var i :| 0 <= i < |chunks| && chunks[i] == r;
      assert chunks[i].startsAt < until && from < chunks[i].releasesAt;
    }
  }

  /** An execution of no length is in the way of the plans around its instant. */
  lemma InstantOverlap(chunks: seq<Reservation>, at: real)
    ensures Overlaps(chunks, at, at) <==> exists r :: r in chunks && r.startsAt < at < r.releasesAt
  {
    if Overlaps(chunks, at, at) {
      var i :| 0 <= i < |chunks| && chunks[i].startsAt < at < chunks[i].releasesAt;
      assert chunks[i] in chunks;
    }
    if r :| r in chunks && r.startsAt < at < r.releasesAt {
      var i :| 0 <= i < |chunks| && chunks[i] == r;
      assert chunks[i].startsAt < at && at < chunks[i].releasesAt;
    }
  }

  /** The recorded peak is the least level that was never exceeded, before or now. */
  lemma {:induction false} PeakIsLeast(before: real, items: seq<Reservation>, peak: real, level: real)
    requires LargerOf(before, items, peak)
    ensures level >= peak <==> level >= before && forall t: real :: Occupancy(items, t) <= level
  {
    hide Occupancy;
    if level >= peak {
      forall t: real ensures Occupancy(items, t) <= level { assert Occupancy(items, t) <= peak; }
    } else if peak != before {
      var t: real :| Occupancy(items, t) == peak;
      assert Occupancy(items, t) > level;
    }
  }
}
