/** What the fairness index of src/prefill_cache_sim/m12_metrics.py:439-457 tells: it is 1 for equal
    shares only, 1/n for a single tenant served only, k/n when k tenants share alike, and it
    depends on neither the unit nor the order of the shares.
 */
module JainFairness {
  import opened WorkTaxonomy

  ghost predicate AllEqual(xs: seq<real>) {
    forall x, y :: x in xs && y in xs ==> x == y
  }

  ghost predicate AllZero(xs: seq<real>) {
    forall x :: x in xs ==> x == 0.0
  }

  /** How many of the shares are not zero. */
  function Served(xs: seq<real>): nat {
    if xs == [] then 0 else (if xs[0] != 0.0 then 1 else 0) + Served(xs[1..])
  }

  lemma FirstOrRest(xs: seq<real>)
    requires xs != []
    ensures forall x :: x in xs <==> x == xs[0] || x in xs[1..]
    ensures AllZero(xs) <==> xs[0] == 0.0 && AllZero(xs[1..])
    ensures NonNegative(xs) ==> xs[0] >= 0.0 && NonNegative(xs[1..])
  {
    OneOrRest(xs);
    assert xs[0] in xs;
  }

  lemma OneOrRest<T>(xs: seq<T>)
    requires xs != []
    ensures forall x :: x in xs <==> x == xs[0] || x in xs[1..]
    ensures xs[0] in xs && forall x :: x in xs[1..] ==> x in xs
  {
  }

  lemma Nobody()
    ensures AllZero([]) && AllEqual([]) && Sum([]) == 0.0 && SumOfSquares([]) == 0.0
    ensures forall x :: Spread(x, []) == 0.0
  {
  }

  lemma {:induction false} SumsUnfold(xs: seq<real>)
    requires xs != []
    ensures Sum(xs) == xs[0] + Sum(xs[1..]) && SumOfSquares(xs) == xs[0] * xs[0] + SumOfSquares(xs[1..])
  {
  }

  lemma PositiveProduct(x: real, y: real)
    requires x > 0.0 && y > 0.0
    ensures x * y > 0.0
  {
  }

  // --- zero -----------------------------------------------------------------

  lemma SquareIsPositive(x: real, w: real)
    requires w == x * x
    ensures w >= 0.0 && (w == 0.0 <==> x == 0.0)
  {
    if x != 0.0 {
      var u := w / x;
      assert u == x;
      assert x < 0.0 && w <= 0.0 ==> u >= 0.0;
    }
  }

  lemma {:induction false} NoSquaresNoShares(xs: seq<real>)
    ensures SumOfSquares(xs) >= 0.0 && (SumOfSquares(xs) == 0.0 <==> AllZero(xs))
  {
    hide AllZero; hide SumOfSquares;
    Nobody();
    if xs != [] {
      NoSquaresNoShares(xs[1..]);
      FirstOrRest(xs);
      SumsUnfold(xs);
      SquareIsPositive(xs[0], SumOfSquares(xs) - SumOfSquares(xs[1..]));
    }
  }

  /** The index is 0 exactly when nobody is served. */
  lemma ZeroIffNobodyServed(xs: seq<real>)
    requires NonNegative(xs)
    ensures Jain(xs) == 0.0 <==> AllZero(xs)
  {
    hide SumOfSquares; hide Sum; hide AllZero;
    NoSquaresNoShares(xs);
    if xs == [] {
      Nobody();
    } else if !AllZero(xs) {
      SquaresWithinSquare(xs);
      IndexIsPositive(Sum(xs), SumOfSquares(xs), |xs| as real);
    }
  }

  lemma IndexIsPositive(s: real, q: real, n: real)
    requires n >= 1.0 && 0.0 < q <= s * s
    ensures n * q > 0.0 && Fairness(s, q, n) == s * s / (n * q) > 0.0
  {
    assert (n - 1.0) * q >= 0.0;
    var d := n * q;
    assert d >= q > 0.0;
  }

  // --- one ------------------------------------------------------------------

  /** Squared distances of `x` to the shares. */
  function Spread(x: real, xs: seq<real>): real {
    if xs == [] then 0.0 else (x - xs[0]) * (x - xs[0]) + Spread(x, xs[1..])
  }

  lemma {:induction false} SpreadIs(x: real, xs: seq<real>)
    ensures Spread(x, xs) == |xs| as real * (x * x) - 2.0 * (x * Sum(xs)) + SumOfSquares(xs)
  {
    hide Spread; hide Sum; hide SumOfSquares;
    if xs == [] {
      Nobody();
    } else {
      SpreadIs(x, xs[1..]);
      SpreadUnfolds(x, xs);
      SumsUnfold(xs);
      SpreadStep(x, xs[0], |xs[1..]| as real, Sum(xs[1..]), SumOfSquares(xs[1..]), |xs| as real, Sum(xs), SumOfSquares(xs));
    }
  }

  lemma {:induction false} SpreadUnfolds(x: real, xs: seq<real>)
    requires xs != []
    ensures Spread(x, xs) == (x - xs[0]) * (x - xs[0]) + Spread(x, xs[1..])
  {
  }

  lemma SpreadStep(x: real, y: real, n: real, s: real, q: real, m: real, sum: real, squares: real)
    requires m == n + 1.0 && sum == y + s && squares == y * y + q
    ensures (x - y) * (x - y) + (n * (x * x) - 2.0 * (x * s) + q) == m * (x * x) - 2.0 * (x * sum) + squares
  {
    assert x * (y + s) == x * y + x * s;
    assert (x - y) * (x - y) == x * x - 2.0 * (x * y) + y * y;
    assert (n + 1.0) * (x * x) == n * (x * x) + x * x;
  }

  lemma {:induction false} NoSpread(x: real, xs: seq<real>)
    ensures Spread(x, xs) >= 0.0
    ensures Spread(x, xs) == 0.0 <==> forall y :: y in xs ==> y == x
  {
    hide Spread;
    Nobody();
    if xs != [] {
      NoSpread(x, xs[1..]);
      OneOrRest(xs);
      SpreadUnfolds(x, xs);
      SquareIsPositive(x - xs[0], Spread(x, xs) - Spread(x, xs[1..]));
    }
  }

  /** How far the shares are from equal. */
  function Gap(xs: seq<real>): real {
    |xs| as real * SumOfSquares(xs) - Sum(xs) * Sum(xs)
  }

  lemma GapStep(x: real, n: real, s: real, q: real, m: real, sum: real, squares: real)
    requires m == n + 1.0 && sum == x + s && squares == x * x + q
    ensures m * squares - sum * sum == (n * q - s * s) + (n * (x * x) - 2.0 * (x * s) + q)
  {
    assert (x + s) * (x + s) == x * x + 2.0 * (x * s) + s * s;
    assert (n + 1.0) * (x * x + q) == n * (x * x) + n * q + x * x + q;
  }

  /** One more share adds its distances to the others. */
  lemma GapGrows(xs: seq<real>)
    requires xs != []
    ensures Gap(xs) == Gap(xs[1..]) + Spread(xs[0], xs[1..])
  {
    hide Spread; hide Sum; hide SumOfSquares;
    var x, rest := xs[0], xs[1..];
    SumsUnfold(xs);
    SpreadIs(x, rest);
    GapStep(x, |rest| as real, Sum(rest), SumOfSquares(rest), |xs| as real, Sum(xs), SumOfSquares(xs));
  }

  lemma {:induction false} NoGapIffEqual(xs: seq<real>)
    ensures Gap(xs) >= 0.0 && (Gap(xs) == 0.0 <==> AllEqual(xs))
  {
    if xs == [] {
      Nobody();
    } else {
      hide Gap; hide Spread;
      var x, rest := xs[0], xs[1..];
      NoGapIffEqual(rest);
      OneOrRest(xs);
      NoSpread(x, rest);
      GapGrows(xs);
    }
  }

  /** The index is 1 exactly when somebody is served and all shares are equal. */
  lemma OneIffEqualShares(xs: seq<real>)
    requires NonNegative(xs)
    ensures Jain(xs) == 1.0 <==> AllEqual(xs) && !AllZero(xs)
  {
    hide SumOfSquares; hide Sum; hide AllZero; hide AllEqual;
    NoSquaresNoShares(xs);
    if !AllZero(xs) {
      assert xs != [] by { Nobody(); }
      NoGapIffEqual(xs);
      SquaresWithinSquare(xs);
      IndexIsPositive(Sum(xs), SumOfSquares(xs), |xs| as real);
      RatioIsOne(Sum(xs) * Sum(xs), |xs| as real * SumOfSquares(xs));
    } else {
      ZeroIffNobodyServed(xs);
    }
  }

  lemma RatioIsOne(p: real, d: real)
    requires d > 0.0
    ensures p / d == 1.0 <==> d - p == 0.0
  {
    assert p == (p / d) * d;
  }

  // --- one n-th -------------------------------------------------------------

  lemma {:induction false} NobodyServed(xs: seq<real>)
    ensures Served(xs) == 0 <==> AllZero(xs)
  {
    Nobody();
    if xs != [] {
      NobodyServed(xs[1..]);
      FirstOrRest(xs);
    }
  }

  lemma {:induction false} NothingToShare(xs: seq<real>)
    requires NonNegative(xs)
    ensures Sum(xs) >= 0.0 && (Sum(xs) == 0.0 <==> AllZero(xs))
  {
    hide AllZero;
    Nobody();
    if xs != [] {
      FirstOrRest(xs);
      NothingToShare(xs[1..]);
    }
  }

  lemma CrossTerm(x: real, s: real, q: real)
    requires x >= 0.0 && s >= 0.0
    ensures (x + s) * (x + s) - (x * x + q) == 2.0 * (x * s) + (s * s - q)
    ensures x * s >= 0.0 && (x * s == 0.0 <==> x == 0.0 || s == 0.0)
  {
  }

  lemma {:induction false} SquareOfSumIff(xs: seq<real>)
    requires NonNegative(xs)
    ensures Sum(xs) * Sum(xs) - SumOfSquares(xs) >= 0.0
    ensures Sum(xs) * Sum(xs) - SumOfSquares(xs) == 0.0 <==> Served(xs) <= 1
  {
    if xs != [] {
      var x, rest := xs[0], xs[1..];
      FirstOrRest(xs);
      SquareOfSumIff(rest);
      NothingToShare(rest);
      NobodyServed(rest);
      CrossTerm(x, Sum(rest), SumOfSquares(rest));
    }
  }

  /** The index is 1/n exactly when one tenant alone is served, or the only tenant there is. */
  lemma {:induction false} OneNthIffSingleTenant(xs: seq<real>)
    requires NonNegative(xs) && xs != []
    ensures Jain(xs) == 1.0 / |xs| as real <==> Served(xs) == 1
  {
    hide SumOfSquares; hide Sum; hide AllZero; hide Served;
    NoSquaresNoShares(xs);
    NobodyServed(xs);
    ZeroIffNobodyServed(xs);
    if !AllZero(xs) {
      SquaresWithinSquare(xs);
      SquareOfSumIff(xs);
      IndexIsPositive(Sum(xs), SumOfSquares(xs), |xs| as real);
      RatioIsOneNth(Sum(xs) * Sum(xs), SumOfSquares(xs), |xs| as real);
    } else {
      assert 1.0 / |xs| as real > 0.0;
    }
  }

  lemma RatioIsOneNth(p: real, q: real, n: real)
    requires n >= 1.0 && q > 0.0 && n * q > 0.0
    ensures p / (n * q) == 1.0 / n <==> p - q == 0.0
  {
    var d := n * q;
    assert q / d == 1.0 / n by { assert d / n == q; }
    assert p == (p / d) * d && q == (q / d) * d;
  }

  // --- k out of n -----------------------------------------------------------

  lemma {:induction false} AlikeSums(xs: seq<real>, v: real)
    requires v > 0.0 && forall x :: x in xs ==> x == 0.0 || x == v
    ensures Sum(xs) == Served(xs) as real * v && SumOfSquares(xs) == Served(xs) as real * (v * v)
  {
    hide Sum; hide SumOfSquares;
    if xs == [] {
      Nobody();
    } else {
      OneOrRest(xs);
      assert xs[0] == 0.0 || xs[0] == v;
      AlikeSums(xs[1..], v);
      SumsUnfold(xs);
      var k := Served(xs[1..]) as real;
      OneMore(k, v);
      OneMore(k, v * v);
      assert Served(xs) as real == if xs[0] == v then k + 1.0 else k;
    }
  }

  lemma OneMore(k: real, v: real)
    ensures (k + 1.0) * v == k * v + v
  {
  }

  /** When k of n tenants have equal shares and the others none, the index is k/n. */
  lemma {:induction false} EqualSharesOfSome(xs: seq<real>, v: real)
    requires xs != [] && v > 0.0 && forall x :: x in xs ==> x == 0.0 || x == v
    ensures Jain(xs) == Served(xs) as real / |xs| as real
  {
    hide Sum; hide SumOfSquares; hide Served;
    AlikeSums(xs, v);
    var k, n := Served(xs) as real, |xs| as real;
    if k > 0.0 {
      KOutOfN(k, n, v);
    } else {
      assert n * (k * (v * v)) == 0.0;
    }
  }

  lemma KOutOfN(k: real, n: real, v: real)
    requires k > 0.0 && n >= 1.0 && v > 0.0
    ensures Fairness(k * v, k * (v * v), n) == k / n
  {
    var w := v * v;
    SquareIsPositive(v, w);
    SquareOfShares(k, v, w);
    SharesCancel(k, n, k * v, k * w);
  }

  lemma SquareOfShares(k: real, v: real, w: real)
    requires w == v * v && k > 0.0 && w > 0.0
    ensures (k * v) * (k * v) == k * (k * w) && k * w > 0.0
  {
  }

  lemma SharesCancel(k: real, n: real, s: real, q: real)
    requires k > 0.0 && n >= 1.0 && q > 0.0 && s * s == k * q
    ensures Fairness(s, q, n) == k / n
  {
    PositiveProduct(n, q);
    SameRatio(k, n, q);
  }

  lemma SameRatio(a: real, b: real, w: real)
    requires b > 0.0 && w > 0.0
    ensures b * w > 0.0 && (a * w) / (b * w) == a / b
  {
    var r := a / b;
    assert a == r * b;
    assert a * w == r * (b * w);
  }

  // --- unit and order -------------------------------------------------------

  function Scaled(c: real, xs: seq<real>): (ys: seq<real>)
    ensures |ys| == |xs| && forall i :: 0 <= i < |xs| ==> ys[i] == c * xs[i]
  {
    if xs == [] then [] else [c * xs[0]] + Scaled(c, xs[1..])
  }

  lemma {:induction false} ScaledSums(c: real, xs: seq<real>)
    ensures Sum(Scaled(c, xs)) == c * Sum(xs) && SumOfSquares(Scaled(c, xs)) == c * c * SumOfSquares(xs)
  {
    hide Sum; hide SumOfSquares;
    Nobody();
    if xs != [] {
      var ys := Scaled(c, xs);
      assert ys[1..] == Scaled(c, xs[1..]) && ys[0] == c * xs[0];
      ScaledSums(c, xs[1..]);
      SumsUnfold(xs);
      SumsUnfold(ys);
      ScaledStep(c, xs[0], Sum(xs[1..]), SumOfSquares(xs[1..]));
    }
  }

  lemma ScaledStep(c: real, x: real, s: real, q: real)
    ensures c * x + c * s == c * (x + s) && (c * x) * (c * x) + c * c * q == c * c * (x * x + q)
  {
    assert (c * x) * (c * x) == c * c * (x * x);
  }

  /** The index does not depend on the unit of the shares. */
  lemma {:induction false} UnitDoesNotMatter(c: real, xs: seq<real>)
    requires c > 0.0
    ensures Jain(Scaled(c, xs)) == Jain(xs)
  {
    hide Sum; hide SumOfSquares; hide Scaled;
    ScaledSums(c, xs);
    NoSquaresNoShares(xs);
    if xs != [] { UnitCancels(c, Sum(xs), SumOfSquares(xs), |xs| as real); }
  }

  lemma UnitCancels(c: real, s: real, q: real, n: real)
    requires c > 0.0 && n >= 1.0 && q >= 0.0
    ensures Fairness(c * s, c * c * q, n) == Fairness(s, q, n)
  {
    var w := c * c;
    SquareIsPositive(c, w);
    Rescaled(c, s, q, n, w);
    RatioOfRescaled(s * s, n * q, w, (c * s) * (c * s), n * (c * c * q));
    if q > 0.0 { PositiveProduct(n, q); }
  }

  lemma RatioOfRescaled(p: real, d: real, w: real, p': real, d': real)
    requires w > 0.0 && p' == p * w && d' == d * w
    ensures d' == 0.0 <==> d == 0.0
    ensures d > 0.0 ==> p' / d' == p / d
  {
    if d > 0.0 { SameRatio(p, d, w); }
  }

  lemma Rescaled(c: real, s: real, q: real, n: real, w: real)
    requires w == c * c
    ensures n * (c * c * q) == (n * q) * w && (c * s) * (c * s) == (s * s) * w
  {
  }

  lemma {:induction false} SumsConcat(a: seq<real>, b: seq<real>)
    ensures Sum(a + b) == Sum(a) + Sum(b) && SumOfSquares(a + b) == SumOfSquares(a) + SumOfSquares(b)
  {
    if a == [] {
      assert a + b == b;
    } else {
      assert (a + b)[1..] == a[1..] + b;
      SumsConcat(a[1..], b);
    }
  }

  lemma {:induction false} SumsReorder(xs: seq<real>, ys: seq<real>)
    requires multiset(xs) == multiset(ys)
    ensures Sum(xs) == Sum(ys) && SumOfSquares(xs) == SumOfSquares(ys) && |xs| == |ys|
    decreases |xs|
  {
    hide Sum; hide SumOfSquares;
    SameLength(xs, ys);
    if xs != [] {
      var i := Standing(xs, ys);
      SameWithout(xs, ys, i);
      var a, b := ys[..i], ys[i + 1..];
      SumsReorder(xs[1..], a + b);
      assert ys == a + ([xs[0]] + b) && xs == [xs[0]] + xs[1..];
      SumsConcat(a, [xs[0]] + b);
      SumsConcat([xs[0]], b);
      SumsConcat(a, b);
      SumsConcat([xs[0]], xs[1..]);
    }
  }

  /** Where the first share of the one list stands in the other. */
  lemma Standing<T>(xs: seq<T>, ys: seq<T>) returns (i: nat)
    requires multiset(xs) == multiset(ys) && xs != []
    ensures i < |ys| && ys[i] == xs[0]
  {
    assert xs[0] in multiset(xs);
    assert xs[0] in ys;
    i :| 0 <= i < |ys| && ys[i] == xs[0];
  }

  lemma TailWithout<T>(xs: seq<T>)
    requires xs != []
    ensures multiset(xs[1..]) == multiset(xs) - multiset{xs[0]}
  {
    assert xs == [xs[0]] + xs[1..];
  }

  lemma WithoutOne<T>(ys: seq<T>, i: nat)
    requires i < |ys|
    ensures multiset(ys[..i] + ys[i + 1..]) == multiset(ys) - multiset{ys[i]}
  {
    assert ys == ys[..i] + ([ys[i]] + ys[i + 1..]);
  }

  lemma SameWithout<T>(xs: seq<T>, ys: seq<T>, i: nat)
    requires multiset(xs) == multiset(ys) && xs != [] && i < |ys| && ys[i] == xs[0]
    ensures multiset(xs[1..]) == multiset(ys[..i] + ys[i + 1..])
  {
    TailWithout(xs);
    WithoutOne(ys, i);
  }

  lemma SameLength<T>(xs: seq<T>, ys: seq<T>)
    requires multiset(xs) == multiset(ys)
    ensures |xs| == |ys|
  {
    assert |multiset(xs)| == |xs| && |multiset(ys)| == |ys|;
  }

  /** Nor on the order of the tenants. */
  lemma OrderDoesNotMatter(xs: seq<real>, ys: seq<real>)
    requires multiset(xs) == multiset(ys)
    ensures Jain(xs) == Jain(ys)
  {
    SumsReorder(xs, ys);
  }
}
