/** Where issued GPU work goes, who is credited, and fairness
    (src/prefill_cache_sim/m12_metrics.py:254-457), over exact reals.
 */
module WorkTaxonomy {
  import opened Lists
  import opened Options
  import opened OrderedDicts

  datatype Logical = Logical(id: string, inputTokens: nat, outputTokens: nat)

  datatype Outcome = Outcome(
    id: string,
    index: nat,
    inputTokens: nat,
    emittedTokens: nat,
    completed: bool,
    strictSloMet: bool,
    finish: Option<real>,
    prefillWork: real,
    decodeWork: real,
    wastedPrefill: real,
    wastedDecode: real)

  /** What the outcome record itself refuses. */
  predicate Consistent(a: Outcome) {
    && 0.0 <= a.wastedPrefill <= a.prefillWork && 0.0 <= a.wastedDecode <= a.decodeWork
    && a.completed == a.finish.Some? && (a.strictSloMet ==> a.completed)
  }

  datatype Error = DuplicateAttempt | UnknownWorkload | ShapeDiffers | OutputDiffers

  datatype Result<+T> = Ok(value: T) | Raised(error: Error)

  function Issued(a: Outcome): real { a.prefillWork + a.decodeWork }

  function Wasted(a: Outcome): real { a.wastedPrefill + a.wastedDecode }

  function Useful(a: Outcome): real { a.prefillWork + a.decodeWork - a.wastedPrefill - a.wastedDecode }

  // --- validation -----------------------------------------------------------

  function Refusal(w: Dict<string, Logical>, earlier: seq<Outcome>, a: Outcome): Option<Error> {
    if exists e :: e in earlier && e.id == a.id && e.index == a.index then Some(DuplicateAttempt)
    else if !Has(w, a.id) then Some(UnknownWorkload)
    else if a.inputTokens != Get(w, a.id).inputTokens then Some(ShapeDiffers)
    else if a.completed && a.emittedTokens != Get(w, a.id).outputTokens then Some(OutputDiffers)
    else None
  }

  /** Every attempt is new, known and matches its request. */
  predicate Accepted(w: Dict<string, Logical>, attempts: seq<Outcome>)
    decreases |attempts|
  {
    attempts == []
    || (Accepted(w, attempts[..|attempts| - 1]) && Refusal(w, attempts[..|attempts| - 1], attempts[|attempts| - 1]).None?)
  }

  // --- winners --------------------------------------------------------------

  /** Earlier finish wins, then the smaller attempt index. */
  predicate Beats(a: Outcome, b: Outcome)
    requires a.finish.Some? && b.finish.Some?
  {
    a.finish.value < b.finish.value || (a.finish.value == b.finish.value && a.index < b.index)
  }

  ghost predicate AllConsistent(attempts: seq<Outcome>) {
    forall a :: a in attempts ==> Consistent(a)
  }

  /** The least eligible attempt of every logical request. */
  ghost predicate IsWinners(attempts: seq<Outcome>, winners: Dict<string, Outcome>)
    requires AllConsistent(attempts)
  {
    && Distinct(winners)
    && (forall id :: Has(winners, id) ==>
          && Get(winners, id) in attempts && Get(winners, id).strictSloMet && Get(winners, id).id == id)
    && (forall a :: a in attempts && a.strictSloMet ==>
          Has(winners, a.id) && Get(winners, a.id) in attempts && Get(winners, a.id).finish.Some?
          && (a == Get(winners, a.id) || Beats(Get(winners, a.id), a)
              || (Get(winners, a.id).finish == a.finish && Get(winners, a.id).index == a.index)))
  }

  /** The grouping loop: keep the best eligible attempt of every request. */
  method StrictWinners(attempts: seq<Outcome>) returns (winners: Dict<string, Outcome>)
    requires AllConsistent(attempts)
    ensures IsWinners(attempts, winners)
  {
    winners := [];
    for i := 0 to |attempts|
      invariant IsWinners(attempts[..i], winners)
    {
      var a := attempts[i];
      assert attempts[..i + 1] == attempts[..i] + [a];
      if a.strictSloMet {
        if !Has(winners, a.id) || BetterThan(a, Get(winners, a.id)) {
          NewWinner(attempts[..i], winners, a);
          winners := Put(winners, a.id, a);
        } else {
          OldWinner(attempts[..i], winners, a);
        }
      } else {
        OldWinner(attempts[..i], winners, a);
      }
    }
    assert attempts[..|attempts|] == attempts;
  }

  predicate BetterThan(a: Outcome, b: Outcome) { a.finish.Some? && b.finish.Some? && Beats(a, b) }

  /** Among a request's attempts that met their objective the one credited finished no later than any
      other, and of those that finished together it has the smallest index. */
  lemma {:induction false} WinnerFinishesFirst(attempts: seq<Outcome>, winners: Dict<string, Outcome>, a: Outcome)
    requires AllConsistent(attempts) && IsWinners(attempts, winners) && a in attempts && a.strictSloMet
    ensures Has(winners, a.id) && a.finish.Some? && Get(winners, a.id).finish.Some?
    ensures Get(winners, a.id).id == a.id && Get(winners, a.id) in attempts && Get(winners, a.id).strictSloMet
    ensures Get(winners, a.id).finish.value <= a.finish.value
    ensures Get(winners, a.id).finish == a.finish ==> Get(winners, a.id).index <= a.index
  {
  }

  lemma {:induction false} NewWinner(attempts: seq<Outcome>, winners: Dict<string, Outcome>, a: Outcome)
    requires AllConsistent(attempts + [a]) && AllConsistent(attempts) && IsWinners(attempts, winners) && a.strictSloMet
    requires !Has(winners, a.id) || BetterThan(a, Get(winners, a.id))
    ensures IsWinners(attempts + [a], Put(winners, a.id, a))
  {
    PutKeys(winners, a.id, a);
    var t, more := Put(winners, a.id, a), attempts + [a];
    GetPut(winners, a.id, a, a.id);
    assert a in more && Consistent(a);
    forall id | Has(t, id) ensures Get(t, id) in more && Get(t, id).strictSloMet && Get(t, id).id == id {
      GetPut(winners, a.id, a, id);
    }
    forall b | b in more && b.strictSloMet
      ensures Has(t, b.id) && Get(t, b.id) in more && Get(t, b.id).finish.Some?
      ensures b == Get(t, b.id) || Beats(Get(t, b.id), b) || (Get(t, b.id).finish == b.finish && Get(t, b.id).index == b.index)
    {
      GetPut(winners, a.id, a, b.id);
      assert Consistent(b);
    }
  }

  lemma {:induction false} OldWinner(attempts: seq<Outcome>, winners: Dict<string, Outcome>, a: Outcome)
    requires AllConsistent(attempts + [a]) && AllConsistent(attempts) && IsWinners(attempts, winners)
    requires a.strictSloMet ==> Has(winners, a.id) && !BetterThan(a, Get(winners, a.id))
    ensures IsWinners(attempts + [a], winners)
  {
    var more := attempts + [a];
    assert a in more && Consistent(a);
    forall b | b in more && b.strictSloMet
      ensures Has(winners, b.id) && Get(winners, b.id) in more && Get(winners, b.id).finish.Some?
      ensures || b == Get(winners, b.id) || Beats(Get(winners, b.id), b)
              || (Get(winners, b.id).finish == b.finish && Get(winners, b.id).index == b.index)
    {
      assert Has(winners, b.id) ==> Get(winners, b.id) in attempts && Consistent(Get(winners, b.id));
    }
  }

  // --- sums -----------------------------------------------------------------

  function TotalIssued(attempts: seq<Outcome>): real {
    if attempts == [] then 0.0 else Issued(attempts[0]) + TotalIssued(attempts[1..])
  }

  function TotalWasted(attempts: seq<Outcome>): real {
    if attempts == [] then 0.0 else Wasted(attempts[0]) + TotalWasted(attempts[1..])
  }

  /** Useful work of completed attempts that missed their SLO. */
  function SloMissed(attempts: seq<Outcome>): real {
    if attempts == [] then 0.0
    else (if attempts[0].completed && !attempts[0].strictSloMet then Useful(attempts[0]) else 0.0) + SloMissed(attempts[1..])
  }

  /** Useful work of the winners, summed over the winners' dict. */
  function WinnerWork(winners: Dict<string, Outcome>): real {
    if winners == [] then 0.0 else Useful(winners[0].1) + WinnerWork(winners[1..])
  }

  predicate IsWinner(winners: Dict<string, Outcome>, a: Outcome) {
    Has(winners, a.id) && Get(winners, a.id) == a
  }

  /** Useful work of the attempts that are neither: incomplete ones, and eligible ones
      another attempt of the same request beat. */
  function NeitherWork(attempts: seq<Outcome>, winners: Dict<string, Outcome>): real {
    if attempts == [] then 0.0
    else
      (if !attempts[0].completed || (attempts[0].strictSloMet && !IsWinner(winners, attempts[0]))
       then Useful(attempts[0]) else 0.0)
      + NeitherWork(attempts[1..], winners)
  }

  /** Useful work of the attempts that are winners, summed over the attempts. */
  function WinningAttempts(attempts: seq<Outcome>, winners: Dict<string, Outcome>): real {
    if attempts == [] then 0.0
    else (if IsWinner(winners, attempts[0]) then Useful(attempts[0]) else 0.0) + WinningAttempts(attempts[1..], winners)
  }

  function OnlyOf(attempts: seq<Outcome>, w: Outcome): real {
    if attempts == [] then 0.0 else (if attempts[0] == w then Useful(w) else 0.0) + OnlyOf(attempts[1..], w)
  }

  lemma {:induction false} CountedOnce(attempts: seq<Outcome>, w: Outcome)
    requires NoRepeats(attempts)
    ensures OnlyOf(attempts, w) == if w in attempts then Useful(w) else 0.0
  {
    if attempts != [] {
      CountedOnce(attempts[1..], w);
      assert w in attempts <==> w == attempts[0] || w in attempts[1..];
    }
  }

  lemma {:induction false} NoWinnersNoWork(attempts: seq<Outcome>)
    ensures WinningAttempts(attempts, []) == 0.0
  {
    if attempts != [] {
      NoWinnersNoWork(attempts[1..]);
    }
  }

  /** One more winner adds its own work once. */
  lemma {:induction false} OneMoreWinner(attempts: seq<Outcome>, winners: Dict<string, Outcome>)
    requires winners != [] && Distinct(winners) && winners[0].1.id == winners[0].0
    ensures WinningAttempts(attempts, winners) == WinningAttempts(attempts, winners[1..]) + OnlyOf(attempts, winners[0].1)
  {
    if attempts != [] {
      OneMoreWinner(attempts[1..], winners);
    }
  }

  /** Summing over the winners' dict is summing over the winning attempts. */
  lemma {:induction false} WinnersAreAttempts(attempts: seq<Outcome>, winners: Dict<string, Outcome>)
    requires NoRepeats(attempts) && Distinct(winners)
    requires forall x :: x in winners ==> x.1 in attempts && x.1.id == x.0
    ensures WinnerWork(winners) == WinningAttempts(attempts, winners)
  {
    if winners == [] {
      NoWinnersNoWork(attempts);
    } else {
      assert winners[0] in winners;
      WinnersAreAttempts(attempts, winners[1..]);
      OneMoreWinner(attempts, winners);
      CountedOnce(attempts, winners[0].1);
    }
  }

  /** Each attempt's work is waste plus useful work of exactly one class. */
  lemma {:induction false} Partition(attempts: seq<Outcome>, winners: Dict<string, Outcome>)
    requires forall a :: a in attempts ==> Consistent(a) && (IsWinner(winners, a) ==> a.strictSloMet)
    ensures TotalIssued(attempts) == TotalWasted(attempts) + SloMissed(attempts) + WinningAttempts(attempts, winners)
                                     + NeitherWork(attempts, winners)
    ensures NeitherWork(attempts, winners) >= 0.0
  {
    if attempts != [] {
      assert attempts[0] in attempts;
      Partition(attempts[1..], winners);
    }
  }

  lemma {:induction false} EntriesAreGets<V>(d: Dict<string, V>, x: (string, V))
    requires Distinct(d) && x in d
    ensures Has(d, x.0) && Get(d, x.0) == x.1
  {
    if d[0] != x {
      EntriesAreGets(d[1..], x);
      assert Has(d[1..], x.0);
    }
  }

  /** An attempt record that agrees with its request. */
  predicate Matches(w: Dict<string, Logical>, a: Outcome) {
    && Has(w, a.id) && a.inputTokens == Get(w, a.id).inputTokens
    && (a.completed ==> a.emittedTokens == Get(w, a.id).outputTokens)
  }

  lemma NotRefused(w: Dict<string, Logical>, earlier: seq<Outcome>, a: Outcome)
    requires Refusal(w, earlier, a).None?
    ensures a !in earlier && Matches(w, a)
  {
  }

  /** A record is refused for the first of these reasons: seen before, unknown request, another
      prompt, or a complete output of another length. */
  lemma {:induction false} RefusalSaysWhy(w: Dict<string, Logical>, earlier: seq<Outcome>, a: Outcome)
    ensures var r, seen := Refusal(w, earlier, a), exists e :: e in earlier && (e.id, e.index) == (a.id, a.index);
            && (r == Some(DuplicateAttempt) <==> seen)
            && (r == Some(UnknownWorkload) <==> !seen && !Has(w, a.id))
            && (r == Some(ShapeDiffers) <==> !seen && Has(w, a.id) && Get(w, a.id).inputTokens != a.inputTokens)
            && (r.None? <==> !seen && Matches(w, a))
            && (Matches(w, a) <==>
                  && Has(w, a.id) && Get(w, a.id).inputTokens == a.inputTokens
                  && (a.completed ==> Get(w, a.id).outputTokens == a.emittedTokens))
  {
  }

  /** Accepted are exactly the lists whose records all match their requests and differ in key. */
  lemma {:induction false} AcceptedMeans(w: Dict<string, Logical>, attempts: seq<Outcome>)
    ensures Accepted(w, attempts) <==>
              && (forall i :: 0 <= i < |attempts| ==> Matches(w, attempts[i]))
              && (forall i, j :: 0 <= i < j < |attempts| ==>
                    (attempts[i].id, attempts[i].index) != (attempts[j].id, attempts[j].index))
    decreases |attempts|
  {
    hide Matches; hide Refusal;
    if attempts != [] {
      var front, last := attempts[..|attempts| - 1], attempts[|attempts| - 1];
      AcceptedMeans(w, front);
      RefusalSaysWhy(w, front, last);
      assert forall i :: 0 <= i < |front| ==> front[i] == attempts[i];
      if Accepted(w, attempts) {
        forall i | 0 <= i < |front| ensures (front[i].id, front[i].index) != (last.id, last.index) {
          assert front[i] in front;
        }
      }
    }
  }

  lemma {:induction false} AcceptedHasNoRepeats(w: Dict<string, Logical>, attempts: seq<Outcome>)
    requires Accepted(w, attempts)
    ensures NoRepeats(attempts)
    ensures forall a :: a in attempts ==> Matches(w, a)
    decreases |attempts|
  {
    hide Matches; hide Refusal;
    if attempts != [] {
      var front, last := attempts[..|attempts| - 1], attempts[|attempts| - 1];
      AcceptedHasNoRepeats(w, front);
      assert attempts == front + [last];
      NotRefused(w, front, last);
      NoRepeatsMore(front, last);
    }
  }

  /** The taxonomy: waste, missed and winner work never exceed what was issued, and the
      remainder is exactly the useful work of the attempts in neither class. */
  lemma {:induction false} TaxonomyPartitionsWork(w: Dict<string, Logical>, attempts: seq<Outcome>,
                                                  winners: Dict<string, Outcome>)
    requires Accepted(w, attempts) && AllConsistent(attempts) && IsWinners(attempts, winners)
    ensures TotalIssued(attempts) - (TotalWasted(attempts) + SloMissed(attempts) + WinnerWork(winners))
            == NeitherWork(attempts, winners)
    ensures NeitherWork(attempts, winners) >= 0.0
  {
    AcceptedHasNoRepeats(w, attempts);
    forall x | x in winners ensures x.1 in attempts && x.1.id == x.0 { EntriesAreGets(winners, x); }
    WinnersAreAttempts(attempts, winners);
    forall a | a in attempts ensures Consistent(a) && (IsWinner(winners, a) ==> a.strictSloMet) {
    }
    Partition(attempts, winners);
  }

  // --- credit ---------------------------------------------------------------

  function Offered(w: Dict<string, Logical>): nat {
    if w == [] then 0 else w[0].1.inputTokens + w[0].1.outputTokens + Offered(w[1..])
  }

  function StrictUseful(winners: Dict<string, Outcome>): nat {
    if winners == [] then 0 else winners[0].1.inputTokens + winners[0].1.emittedTokens + StrictUseful(winners[1..])
  }

  lemma {:induction false} OfferedWithout(w: Dict<string, Logical>, id: string)
    requires Distinct(w) && Has(w, id)
    ensures Offered(w) == Get(w, id).inputTokens + Get(w, id).outputTokens + Offered(Pop(w, id))
  {
    if w[0].0 != id {
      OfferedWithout(w[1..], id);
      assert Pop(w, id)[1..] == Pop(w[1..], id);
    }
  }

  /** Each logical request is credited at most once, and with its own tokens: strict useful
      tokens never exceed offered tokens. */
  lemma {:induction false} CreditWithinOffer(w: Dict<string, Logical>, winners: Dict<string, Outcome>)
    requires Distinct(w) && Distinct(winners)
    requires forall x :: x in winners ==> Has(w, x.0) && x.1.inputTokens == Get(w, x.0).inputTokens
                                           && x.1.emittedTokens == Get(w, x.0).outputTokens
    ensures StrictUseful(winners) <= Offered(w)
    decreases |winners|
  {
    if winners != [] {
      var id, rest := winners[0].0, Pop(w, winners[0].0);
      assert winners[0] in winners;
      OfferedWithout(w, id);
      PopKeys(w, id);
      forall x | x in winners[1..]
        ensures Has(rest, x.0) && x.1.inputTokens == Get(rest, x.0).inputTokens && x.1.emittedTokens == Get(rest, x.0).outputTokens
      {
        assert x in winners;
        EntriesAreGets(winners[1..], x);
        GetPop(w, id, x.0);
      }
      CreditWithinOffer(rest, winners[1..]);
    }
  }

  /** If every request is won with its own tokens, all that was offered is credited. */
  lemma {:induction false} AllWonAllCredited(w: Dict<string, Logical>, winners: Dict<string, Outcome>)
    requires Distinct(w) && Distinct(winners) && |w| == |winners|
    requires forall x :: x in winners ==> Has(w, x.0) && x.1.inputTokens == Get(w, x.0).inputTokens
                                           && x.1.emittedTokens == Get(w, x.0).outputTokens
    ensures StrictUseful(winners) == Offered(w)
    decreases |winners|
  {
    if winners != [] {
      var id, rest := winners[0].0, Pop(w, winners[0].0);
      assert winners[0] in winners;
      OfferedWithout(w, id);
      PopKeys(w, id);
      PopLength(w, id);
      forall x | x in winners[1..]
        ensures Has(rest, x.0) && x.1.inputTokens == Get(rest, x.0).inputTokens && x.1.emittedTokens == Get(rest, x.0).outputTokens
      {
        assert x in winners;
        EntriesAreGets(winners[1..], x);
        GetPop(w, id, x.0);
      }
      AllWonAllCredited(rest, winners[1..]);
    }
  }

  lemma {:induction false} StrictUsefulWithinOffered(w: Dict<string, Logical>, attempts: seq<Outcome>,
                                                     winners: Dict<string, Outcome>)
    requires Distinct(w) && Accepted(w, attempts) && AllConsistent(attempts) && IsWinners(attempts, winners)
    ensures StrictUseful(winners) <= Offered(w) && |winners| <= |w|
  {
    AcceptedHasNoRepeats(w, attempts);
    forall x | x in winners
      ensures Has(w, x.0) && x.1.inputTokens == Get(w, x.0).inputTokens && x.1.emittedTokens == Get(w, x.0).outputTokens
    {
      EntriesAreGets(winners, x);
      assert Consistent(x.1);
    }
    CreditWithinOffer(w, winners);
    NoMoreWinners(w, winners);
  }

  lemma {:induction false} NoMoreWinners(w: Dict<string, Logical>, winners: Dict<string, Outcome>)
    requires Distinct(w) && Distinct(winners) && forall x :: x in winners ==> Has(w, x.0)
    ensures |winners| <= |w|
    decreases |winners|
  {
    if winners != [] {
      assert winners[0] in winners;
      PopKeys(w, winners[0].0);
      PopLength(w, winners[0].0);
      forall x | x in winners[1..] ensures Has(Pop(w, winners[0].0), x.0) {
        assert x in winners;
        EntriesAreGets(winners[1..], x);
      }
      NoMoreWinners(Pop(w, winners[0].0), winners[1..]);
    }
  }

  lemma {:induction false} PopLength(w: Dict<string, Logical>, id: string)
    requires Has(w, id)
    ensures |Pop(w, id)| == |w| - 1
  {
    if w[0].0 != id {
      PopLength(w[1..], id);
    }
  }

  // --- fairness -------------------------------------------------------------

  function Sum(xs: seq<real>): real { if xs == [] then 0.0 else xs[0] + Sum(xs[1..]) }

  function SumOfSquares(xs: seq<real>): real { if xs == [] then 0.0 else xs[0] * xs[0] + SumOfSquares(xs[1..]) }

  function Jain(xs: seq<real>): real {
    if xs == [] then 0.0 else Fairness(Sum(xs), SumOfSquares(xs), |xs| as real)
  }

  function Fairness(sum: real, squares: real, n: real): real {
    if n * squares == 0.0 then 0.0 else sum * sum / (n * squares)
  }

  ghost predicate NonNegative(xs: seq<real>) { forall x :: x in xs ==> x >= 0.0 }

  lemma GrowStep(x: real, s: real, q: real)
    requires x >= 0.0 && s >= 0.0 && q <= s * s
    ensures x * x + q <= (x + s) * (x + s)
  {
    assert x * s >= 0.0;
    assert (x + s) * (x + s) == x * x + x * s + x * s + s * s;
  }

  lemma {:induction false} SquaresWithinSquare(xs: seq<real>)
    requires NonNegative(xs)
    ensures Sum(xs) >= 0.0 && SumOfSquares(xs) <= Sum(xs) * Sum(xs)
  {
    if xs != [] {
      assert xs[0] in xs && forall x :: x in xs[1..] ==> x in xs;
      SquaresWithinSquare(xs[1..]);
      GrowStep(xs[0], Sum(xs[1..]), SumOfSquares(xs[1..]));
    }
  }

  lemma CauchyStep(x: real, s: real, q: real, n: real)
    requires n >= 1.0 && s * s <= n * q
    ensures (x + s) * (x + s) <= (n + 1.0) * (x * x + q)
  {
    var t := x * s;
    TwiceProduct(x, s, n);
    DivideBy(n, 2.0 * t, q + n * (x * x)) by {
      assert n * (2.0 * t) == 2.0 * (n * t);
      assert n * (q + n * (x * x)) == n * q + n * n * (x * x);
    }
    assert (x + s) * (x + s) == x * x + 2.0 * t + s * s;
    assert (n + 1.0) * (x * x + q) == n * (x * x) + n * q + x * x + q;
  }

  lemma TwiceProduct(x: real, s: real, n: real)
    ensures 2.0 * (n * (x * s)) <= s * s + n * n * (x * x)
  {
    var d := s - n * x;
    assert d * d >= 0.0;
    assert d * d == s * s - 2.0 * (n * (x * s)) + n * n * (x * x);
  }

  lemma DivideBy(n: real, a: real, b: real)
    requires n >= 1.0 && n * a <= n * b
    ensures a <= b
  {
    var d := a - b;
    assert n * d <= 0.0;
    assert d > 0.0 ==> n * d >= d;
  }

  lemma {:induction false} Cauchy(xs: seq<real>)
    requires xs != []
    ensures Sum(xs) * Sum(xs) <= |xs| as real * SumOfSquares(xs)
  {
    if |xs| == 1 {
      assert xs[1..] == [];
    } else {
      Cauchy(xs[1..]);
      CauchyStep(xs[0], Sum(xs[1..]), SumOfSquares(xs[1..]), |xs[1..]| as real);
      assert |xs| as real == |xs[1..]| as real + 1.0;
    }
  }

  /** Over n tenants Jain fairness is 0 or lies between 1/n and 1. */
  lemma JainBounds(xs: seq<real>)
    requires xs != [] && forall x :: x in xs ==> x >= 0.0
    ensures Jain(xs) == 0.0 || 1.0 / |xs| as real <= Jain(xs) <= 1.0
  {
    hide Sum; hide SumOfSquares; hide Fairness;
    Cauchy(xs);
    SquaresWithinSquare(xs);
    SquaresAreNonNegative(xs);
    FairnessBounds(Sum(xs), SumOfSquares(xs), |xs| as real);
  }

  lemma FairnessBounds(s: real, q: real, n: real)
    requires n >= 1.0 && q >= 0.0 && q <= s * s <= n * q
    ensures Fairness(s, q, n) == 0.0 || 1.0 / n <= Fairness(s, q, n) <= 1.0
  {
    Grow(n, q);
    if q > 0.0 {
      Ratio(s * s, n * q);
      assert 1.0 / n == q / (n * q);
      Monotone(q, s * s, n * q);
    }
  }

  lemma Grow(n: real, q: real)
    requires n >= 1.0 && q >= 0.0
    ensures n * q >= q
  {
    assert (n - 1.0) * q >= 0.0;
  }

  lemma Ratio(p: real, d: real)
    requires d > 0.0 && p <= d
    ensures p / d <= 1.0
  {
  }

  lemma Monotone(p: real, q: real, d: real)
    requires d > 0.0 && p <= q
    ensures p / d <= q / d
  {
  }

  lemma {:induction false} SquaresAreNonNegative(xs: seq<real>)
    ensures SumOfSquares(xs) >= 0.0
  {
    if xs != [] {
      SquaresAreNonNegative(xs[1..]);
      assert xs[0] * xs[0] >= 0.0;
    }
  }
}
