/** Residency intervals of a block (src/prefill_cache_sim/cache.py:73-104, 137-148, 168-171)
    against the plain log of what entered and left the cache.
 */
module ResidencyHistory {
  import opened Options
  import opened EvictionPolicies

  datatype Interval = Interval(start: real, end: Option<real>)

  datatype Change = Added(block: Block, at: real) | Dropped(block: Block, at: real)

  /** The resident set after all changes at times up to `t`. */
  function ResidentAt(log: seq<Change>, t: real): set<Block> {
    if log == [] then {}
    else
      var rest, last := ResidentAt(log[..|log| - 1], t), log[|log| - 1];
      if last.at > t then rest else if last.Added? then rest + {last.block} else rest - {last.block}
  }

  /** The resident set after all changes. */
  function Final(log: seq<Change>): set<Block> {
    if log == [] then {}
    else
      var rest, last := Final(log[..|log| - 1]), log[|log| - 1];
      if last.Added? then rest + {last.block} else rest - {last.block}
  }

  predicate Holds(x: Interval, t: real) {
    x.start <= t && (x.end.None? || t < x.end.value)
  }

  /** `preview_at`'s question, asked of the interval list newest first. */
  predicate Covers(intervals: seq<Interval>, t: real) {
    intervals != [] && (Holds(intervals[|intervals| - 1], t) || Covers(intervals[..|intervals| - 1], t))
  }

  /** The block enters. */
  function Opened(intervals: seq<Interval>, at: real): seq<Interval> { intervals + [Interval(at, None)] }

  /** The block leaves: its open interval, if any, ends. */
  function Closed(intervals: seq<Interval>, at: real): seq<Interval> {
    if intervals != [] && intervals[|intervals| - 1].end.None?
    then intervals[|intervals| - 1 := intervals[|intervals| - 1].(end := Some(at))]
    else intervals
  }

  ghost predicate LogBefore(log: seq<Change>, now: real) {
    forall i :: 0 <= i < |log| ==> log[i].at <= now
  }

  /** Every interval but the last is over, and the last is open exactly while resident. */
  ghost predicate Shaped(intervals: seq<Interval>, now: real, resident: bool) {
    if intervals == [] then !resident
    else
      var last := intervals[|intervals| - 1];
      && (forall i :: 0 <= i < |intervals| - 1 ==> intervals[i].end.Some? && intervals[i].end.value <= now)
      && last.start <= now && last.end.None? == resident && (last.end.Some? ==> last.end.value <= now)
  }

  ghost predicate Agrees(intervals: seq<Interval>, log: seq<Change>, b: Block, t: real) {
    Covers(intervals, t) <==> b in ResidentAt(log, t)
  }

  /** The intervals of `b` tell its residency at every real time. */
  ghost predicate Tells(intervals: seq<Interval>, log: seq<Change>, now: real, b: Block) {
    Shaped(intervals, now, b in Final(log)) && forall t :: Agrees(intervals, log, b, t)
  }

  lemma {:induction false} AllPast(log: seq<Change>, now: real, t: real)
    requires LogBefore(log, now) && now <= t
    ensures ResidentAt(log, t) == Final(log)
  {
    if log != [] {
      AllPast(log[..|log| - 1], now, t);
    }
  }

  lemma {:induction false} PastIntervalsCoverNothing(intervals: seq<Interval>, now: real, t: real)
    requires forall i :: 0 <= i < |intervals| ==> intervals[i].end.Some? && intervals[i].end.value <= now
    requires now <= t
    ensures !Covers(intervals, t)
  {
    if intervals != [] {
      PastIntervalsCoverNothing(intervals[..|intervals| - 1], now, t);
    }
  }

  /** One more change, seen from before and from after it. */
  lemma {:induction false} OneMore(log: seq<Change>, x: Change, t: real)
    ensures ResidentAt(log + [x], t) == (if x.at > t then ResidentAt(log, t)
                                         else if x.Added? then ResidentAt(log, t) + {x.block}
                                         else ResidentAt(log, t) - {x.block})
    ensures Final(log + [x]) == if x.Added? then Final(log) + {x.block} else Final(log) - {x.block}
  {
    assert (log + [x])[..|log|] == log;
  }

  /** An insertion at `at` opens an interval that tells the truth before and after. */
  lemma {:induction false} OpeningTells(intervals: seq<Interval>, log: seq<Change>, now: real, b: Block, at: real)
    requires Tells(intervals, log, now, b) && LogBefore(log, now) && now <= at && b !in Final(log)
    ensures Tells(Opened(intervals, at), log + [Added(b, at)], at, b)
  {
    var more, log' := Opened(intervals, at), log + [Added(b, at)];
    OneMore(log, Added(b, at), at);
    forall t ensures Agrees(more, log', b, t) {
      OneMore(log, Added(b, at), t);
      assert more[..|intervals|] == intervals && Agrees(intervals, log, b, t);
    }
  }

  /** A removal at `at` ends the open interval: the block was there before, and is not from
      then on, even if it had entered at the same instant. */
  lemma {:induction false} ClosingTells(intervals: seq<Interval>, log: seq<Change>, now: real, b: Block, at: real)
    requires Tells(intervals, log, now, b) && LogBefore(log, now) && now <= at && b in Final(log)
    ensures Tells(Closed(intervals, at), log + [Dropped(b, at)], at, b)
  {
    var less, log' := Closed(intervals, at), log + [Dropped(b, at)];
    var n := |intervals| - 1;
    OneMore(log, Dropped(b, at), at);
    assert less[..n] == intervals[..n];
    forall t ensures Agrees(less, log', b, t) {
      OneMore(log, Dropped(b, at), t);
      assert Agrees(intervals, log, b, t);
      if t >= at {
        AllPast(log, now, t);
        PastIntervalsCoverNothing(less, at, t);
      }
    }
  }

  /** A change of another block says nothing about `b`. */
  lemma OthersTell(intervals: seq<Interval>, log: seq<Change>, now: real, b: Block, x: Change)
    requires Tells(intervals, log, now, b) && now <= x.at && x.block != b
    ensures Tells(intervals, log + [x], x.at, b)
  {
    OneMore(log, x, x.at);
    forall t ensures Agrees(intervals, log + [x], b, t) {
      OneMore(log, x, t);
      assert Agrees(intervals, log, b, t);
    }
  }
}
