/** Half-open reservations on one timeline of fixed capacity
    (src/prefill_cache_sim/m12_decode.py), and why finitely many checks decide facts
    about every real instant.
 */
module Timeline {

  datatype Reservation = Reservation(
    logicalRequestId: string,
    attemptIndex: int,
    credits: real,
    startsAt: real,
    releasesAt: real)

  /** The shortest reservation lasts one billionth of a work unit. */
  const MIN_DURATION: real := 0.000000001

  function Min(x: real, y: real): real { if x <= y then x else y }

  function Max(x: real, y: real): real { if x >= y then x else y }

  function Duration(credits: real): real { Max(credits, MIN_DURATION) }

  predicate ActiveAt(r: Reservation, t: real) {
    r.startsAt <= t < r.releasesAt
  }

  /** Credits held at instant `t`. */
  function Occupancy(items: seq<Reservation>, t: real): real {
    if items == [] then 0.0
    else (if ActiveAt(items[0], t) then items[0].credits else 0.0) + Occupancy(items[1..], t)
  }

  ghost predicate NonNegative(items: seq<Reservation>) {
    forall r :: r in items ==> r.credits >= 0.0
  }

  /** A request of `width` credits fits at every instant of its window. */
  ghost predicate Fits(items: seq<Reservation>, capacity: real, width: real, t: real) {
    forall s: real :: t <= s < t + Duration(width) ==> Occupancy(items, s) + width <= capacity
  }

  /** `t` is the earliest of all real instants at or after `now` where `width` fits. */
  ghost predicate EarliestFit(items: seq<Reservation>, capacity: real, now: real, width: real, t: real) {
    && t >= now
    && Fits(items, capacity, width, t)
    && forall u: real :: now <= u < t ==> !Fits(items, capacity, width, u)
  }

  /** Asked again on the way there, an unchanged timeline answers the same instant: this is what
      makes a decode fence taken from it stable. */
  lemma EarliestFitIsStable(items: seq<Reservation>, capacity: real, now: real, width: real, t: real, later: real, u: real)
    requires EarliestFit(items, capacity, now, width, t) && now <= later <= t
    requires EarliestFit(items, capacity, later, width, u)
    ensures u == t
  {
    hide Fits;
  }

  /** The instants the source tests: the start of the window and every reservation
      start strictly inside it. */
  function Breakpoints(items: seq<Reservation>, from: real, until: real): seq<real> {
    [from] + InnerStarts(items, from, until)
  }

  function InnerStarts(items: seq<Reservation>, from: real, until: real): seq<real> {
    if items == [] then []
    else
      (if from < items[0].startsAt < until then [items[0].startsAt] else [])
      + InnerStarts(items[1..], from, until)
  }

  predicate FitsAtBreakpoints(items: seq<Reservation>, capacity: real, width: real, t: real) {
    forall p :: p in Breakpoints(items, t, t + Duration(width)) ==> Occupancy(items, p) + width <= capacity
  }

  /** The largest occupancy over a list of instants. */
  function PeakOver(items: seq<Reservation>, points: seq<real>): (m: real)
    requires points != []
    ensures forall p :: p in points ==> Occupancy(items, p) <= m
    ensures exists p :: p in points && Occupancy(items, p) == m
  {
    var first := Occupancy(items, points[0]);
    assert points[0] in points;
    if |points| == 1 then first
    else
      var rest := PeakOver(items, points[1..]);
      assert forall p :: p in points ==> p == points[0] || p in points[1..];
      Max(first, rest)
  }

  lemma {:induction false} OccupancyConcat(a: seq<Reservation>, b: seq<Reservation>, t: real)
    ensures Occupancy(a + b, t) == Occupancy(a, t) + Occupancy(b, t)
  {
    if a == [] {
      assert a + b == b;
    } else {
      OccupancyConcat(a[1..], b, t);
      assert (a + b)[1..] == a[1..] + b;
    }
  }

  lemma {:induction false} OccupancyNonNegative(items: seq<Reservation>, t: real)
    requires NonNegative(items)
    ensures Occupancy(items, t) >= 0.0
  {
    if items != [] {
      assert items[0] in items;
      OccupancyNonNegative(items[1..], t);
    }
  }

  /** Whatever is held at `t` is held at `p` too, provided nothing starts in between:
      occupancy can only fall as time passes without starts. */
  lemma {:induction false} OccupancyFallsBetweenStarts(items: seq<Reservation>, p: real, t: real)
    requires NonNegative(items) && p <= t
    requires forall r :: r in items ==> !(p < r.startsAt <= t)
    ensures Occupancy(items, t) <= Occupancy(items, p)
  {
    if items != [] {
      assert items[0] in items;
      OccupancyFallsBetweenStarts(items[1..], p, t);
    }
  }

  /** Likewise it can only rise while nothing is released. */
  lemma {:induction false} OccupancyRisesBetweenReleases(items: seq<Reservation>, p: real, t: real)
    requires NonNegative(items) && p <= t
    requires forall r :: r in items ==> !(p < r.releasesAt <= t)
    ensures Occupancy(items, p) <= Occupancy(items, t)
  {
    if items != [] {
      assert items[0] in items;
      OccupancyRisesBetweenReleases(items[1..], p, t);
    }
  }

  lemma {:induction false} InnerStartsAre(items: seq<Reservation>, from: real, until: real)
    ensures forall p :: p in InnerStarts(items, from, until) <==>
                        (from < p < until && exists r :: r in items && r.startsAt == p)
  {
    if items != [] {
      InnerStartsAre(items[1..], from, until);
      var tail := InnerStarts(items[1..], from, until);
      forall p ensures p in InnerStarts(items, from, until) <==>
                       (from < p < until && exists r :: r in items && r.startsAt == p)
      {
        if from < p < until && exists r :: r in items && r.startsAt == p {
          var r :| r in items && r.startsAt == p;
          assert r == items[0] || r in items[1..];
        }
        if p in InnerStarts(items, from, until) {
          if p in tail {
            var r :| r in items[1..] && r.startsAt == p;
            assert r in items;
          } else {
            assert items[0] in items && items[0].startsAt == p;
          }
        }
      }
    }
  }

  /** The last instant in `points` that is not after `t`. */
  ghost function LastNotAfter(points: seq<real>, t: real): (p: real)
    requires points != [] && points[0] <= t
    ensures p in points && p <= t
    ensures forall q :: q in points && q <= t ==> q <= p
    decreases |points|
  {
    if |points| == 1 then points[0]
    else if points[1] <= t then
      assert points[1..][0] == points[1];
      var rest := LastNotAfter(points[1..], t);
      assert forall q :: q in points ==> q == points[0] || q in points[1..];
      Max(points[0], rest)
    else
      var shorter := [points[0]] + points[2..];
      assert forall q :: q in points && q <= t ==> q in shorter by {
        forall q | q in points && q <= t ensures q in shorter {
          var i :| 0 <= i < |points| && points[i] == q;
          if i >= 2 { assert shorter[i - 1] == q; }
        }
      }
      LastNotAfter(shorter, t)
  }

  /** The window bound: some breakpoint dominates every instant of the window. */
  lemma {:induction false} WindowDominated(items: seq<Reservation>, from: real, until: real, t: real)
    requires NonNegative(items) && from <= t < until
    ensures exists p :: p in Breakpoints(items, from, until) && from <= p <= t
                        && Occupancy(items, t) <= Occupancy(items, p)
  {
    var points := Breakpoints(items, from, until);
    var p := LastNotAfter(points, t);
    InnerStartsAre(items, from, until);
    assert points[0] in points;
    forall r | r in items ensures !(p < r.startsAt <= t) {
      assert from < r.startsAt < until ==> r.startsAt in points;
    }
    OccupancyFallsBetweenStarts(items, p, t);
  }

  /** Testing the breakpoints decides the whole window, in both directions. */
  lemma BreakpointsDecideWindow(items: seq<Reservation>, capacity: real, width: real, t: real)
    requires NonNegative(items)
    ensures FitsAtBreakpoints(items, capacity, width, t) <==> Fits(items, capacity, width, t)
  {
    var until := t + Duration(width);
    if FitsAtBreakpoints(items, capacity, width, t) {
      forall s: real | t <= s < until ensures Occupancy(items, s) + width <= capacity {
        WindowDominated(items, t, until, s);
      }
    }
    if Fits(items, capacity, width, t) {
      InnerStartsAre(items, t, until);
    }
  }

  /** `PeakOver` the breakpoints is the supremum of the occupancy over the window. */
  lemma {:induction false} PeakBoundsWindow(items: seq<Reservation>, from: real, until: real, t: real)
    requires NonNegative(items) && from <= t < until
    ensures Occupancy(items, t) <= PeakOver(items, Breakpoints(items, from, until))
  {
    WindowDominated(items, from, until, t);
  }

  /** An instant that fits can be moved back to any earlier instant with no release in
      between, as long as it is not before that instant. */
  lemma FitSlidesBack(items: seq<Reservation>, capacity: real, width: real, c: real, u: real)
    requires NonNegative(items) && c <= u
    requires forall r :: r in items ==> !(c < r.releasesAt <= u)
    requires Fits(items, capacity, width, u)
    ensures Fits(items, capacity, width, c)
  {
    forall s: real | c <= s < c + Duration(width) ensures Occupancy(items, s) + width <= capacity {
      if s < u {
        OccupancyRisesBetweenReleases(items, s, u);
        assert u < u + Duration(width);
      }
    }
  }

  /** Distinct release instants after `now`, ascending. */
  function ReleasesAfter(items: seq<Reservation>, now: real): (rs: seq<real>)
    ensures forall i, j :: 0 <= i < j < |rs| ==> rs[i] < rs[j]
    ensures forall x :: x in rs <==> x > now && exists r :: r in items && r.releasesAt == x
  {
    if items == [] then []
    else
      var rest := ReleasesAfter(items[1..], now);
      assert forall r :: r in items <==> r == items[0] || r in items[1..];
      if items[0].releasesAt > now then InsertAscending(rest, items[0].releasesAt) else rest
  }

  function InsertAscending(xs: seq<real>, x: real): (r: seq<real>)
    requires forall i, j :: 0 <= i < j < |xs| ==> xs[i] < xs[j]
    ensures forall i, j :: 0 <= i < j < |r| ==> r[i] < r[j]
    ensures forall y :: y in r <==> y == x || y in xs
  {
    if xs == [] || x < xs[0] then [x] + xs
    else if x == xs[0] then xs
    else
      var rest := InsertAscending(xs[1..], x);
      assert forall y :: y in xs <==> y == xs[0] || y in xs[1..];
      assert forall i :: 0 <= i < |rest| ==> rest[i] in rest;
      [xs[0]] + rest
  }

  /** The starts worth trying: `now` and every release after it, ascending. */
  function Candidates(items: seq<Reservation>, now: real): (cs: seq<real>)
    ensures cs != [] && cs[0] == now
    ensures forall i, j :: 0 <= i < j < |cs| ==> cs[i] < cs[j]
    ensures forall x :: x in cs <==> x == now || (x > now && exists r :: r in items && r.releasesAt == x)
  {
    var later := ReleasesAfter(items, now);
    assert forall i :: 0 <= i < |later| ==> later[i] in later;
    [now] + later
  }

  /** The latest candidate start not after `u` admits a fit whenever `u` does, so the
      candidates contain the optimum. */
  lemma CandidatesContainOptimum(items: seq<Reservation>, capacity: real, width: real, now: real, u: real)
    requires NonNegative(items) && now <= u
    requires Fits(items, capacity, width, u)
    ensures exists c :: c in Candidates(items, now) && c <= u && Fits(items, capacity, width, c)
  {
    hide Candidates;
    var candidates := Candidates(items, now);
    var c := LastNotAfter(candidates, u);
    forall r | r in items ensures !(c < r.releasesAt <= u) {
      assert now < r.releasesAt ==> r.releasesAt in candidates;
    }
    FitSlidesBack(items, capacity, width, c, u);
  }

  lemma NoFitWithoutCandidate(items: seq<Reservation>, capacity: real, width: real, now: real, u: real)
    requires NonNegative(items) && now <= u
    requires forall c :: c in Candidates(items, now) && c <= u ==> !Fits(items, capacity, width, c)
    ensures !Fits(items, capacity, width, u)
  {
    hide Candidates;
    if Fits(items, capacity, width, u) {
      CandidatesContainOptimum(items, capacity, width, now, u);
    }
  }

  /** If no candidate before the i-th fits, no instant before it fits. */
  lemma NoFitBefore(items: seq<Reservation>, capacity: real, width: real, now: real, i: nat, u: real)
    requires NonNegative(items) && i < |Candidates(items, now)|
    requires forall j :: 0 <= j < i ==> !Fits(items, capacity, width, Candidates(items, now)[j])
    requires now <= u < Candidates(items, now)[i]
    ensures !Fits(items, capacity, width, u)
  {
    hide Candidates; hide Fits;
    var candidates := Candidates(items, now);
    forall c | c in candidates && c <= u ensures !Fits(items, capacity, width, c) {
      var j :| 0 <= j < |candidates| && candidates[j] == c;
      assert j < i;
    }
    NoFitWithoutCandidate(items, capacity, width, now, u);
  }

  /** After the last release nothing is held, so the last candidate always fits. */
  lemma LastCandidateFits(items: seq<Reservation>, capacity: real, width: real, now: real)
    requires NonNegative(items) && width <= capacity
    ensures var candidates := Candidates(items, now);
            Fits(items, capacity, width, candidates[|candidates| - 1])
  {
    hide Candidates;
    var candidates := Candidates(items, now);
    var last := candidates[|candidates| - 1];
    assert forall x :: x in candidates ==> x <= last;
    forall r | r in items ensures r.releasesAt <= last {
      assert r.releasesAt > now ==> r.releasesAt in candidates;
      assert now in candidates;
    }
    forall s: real | s >= last ensures Occupancy(items, s) == 0.0 {
      NothingHeldAfter(items, s);
    }
  }

  lemma {:induction false} NothingHeldAfter(items: seq<Reservation>, s: real)
    requires forall r :: r in items ==> r.releasesAt <= s
    ensures Occupancy(items, s) == 0.0
  {
    if items != [] {
      assert items[0] in items;
      NothingHeldAfter(items[1..], s);
    }
  }

  /** Nothing is held at an instant no reservation covers. */
  lemma {:induction false} NothingHeldOutside(items: seq<Reservation>, s: real)
    requires forall r :: r in items ==> !ActiveAt(r, s)
    ensures Occupancy(items, s) == 0.0
  {
    if items != [] {
      assert items[0] in items;
      NothingHeldOutside(items[1..], s);
    }
  }
}
