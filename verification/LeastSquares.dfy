/** The closed-form two-factor fit (src/prefill_cache_sim/calibration/fit.py:244-292), over
    exact reals.
 */
module LeastSquares {

  datatype SweepKind = PrefillSweep | DecodeSweep

  datatype Observation = Observation(kind: SweepKind, tokens: nat, batchSize: nat, value: real)

  datatype Fit = Fit(kind: SweepKind, intercept: real, tokenCoefficient: real, batchCoefficient: real, count: nat)

  datatype FitError = TooFewObservations | MixedKinds | RankDeficient

  datatype Result<+T> = Ok(value: T) | Raised(error: FitError)

  const RANK_DEFICIENT_TOLERANCE: real := 0.000000000001

  // --- sums of columns ------------------------------------------------------

  function Tokens(obs: seq<Observation>): (r: seq<real>)
    ensures |r| == |obs|
  {
    if obs == [] then [] else [obs[0].tokens as real] + Tokens(obs[1..])
  }

  function Batches(obs: seq<Observation>): (r: seq<real>)
    ensures |r| == |obs|
  {
    if obs == [] then [] else [obs[0].batchSize as real] + Batches(obs[1..])
  }

  function Values(obs: seq<Observation>): (r: seq<real>)
    ensures |r| == |obs|
  {
    if obs == [] then [] else [obs[0].value] + Values(obs[1..])
  }

  function Sum(xs: seq<real>): real {
    if xs == [] then 0.0 else xs[0] + Sum(xs[1..])
  }

  function Dot(xs: seq<real>, ys: seq<real>): real
    requires |xs| == |ys|
  {
    if xs == [] then 0.0 else xs[0] * ys[0] + Dot(xs[1..], ys[1..])
  }

  function Mean(xs: seq<real>): real
    requires xs != []
  {
    Sum(xs) / |xs| as real
  }

  /** Deviations from `m`. */
  function Centred(xs: seq<real>, m: real): (r: seq<real>)
    ensures |r| == |xs|
  {
    if xs == [] then [] else [xs[0] - m] + Centred(xs[1..], m)
  }

  /** Residuals of the linear model a + b * tokens + c * batch. */
  function Residuals(ys: seq<real>, ts: seq<real>, ss: seq<real>, a: real, b: real, c: real): (r: seq<real>)
    requires |ys| == |ts| == |ss|
    ensures |r| == |ys|
  {
    if ys == [] then [] else [ys[0] - (a + b * ts[0] + c * ss[0])] + Residuals(ys[1..], ts[1..], ss[1..], a, b, c)
  }

  function SquaredError(obs: seq<Observation>, a: real, b: real, c: real): real {
    var r := Residuals(Values(obs), Tokens(obs), Batches(obs), a, b, c);
    Dot(r, r)
  }

  // --- the fit --------------------------------------------------------------

  /** The centred second moments of tokens, batch and value. */
  datatype Moments = Moments(tt: real, ss: real, ts: real, tv: real, sv: real)

  function MomentsOf(obs: seq<Observation>): Moments
    requires obs != []
  {
    var t, s, v := Tokens(obs), Batches(obs), Values(obs);
    var td, sd, vd := Centred(t, Mean(t)), Centred(s, Mean(s)), Centred(v, Mean(v));
    Moments(Dot(td, td), Dot(sd, sd), Dot(td, sd), Dot(td, vd), Dot(sd, vd))
  }

  function Determinant(m: Moments): real { m.tt * m.ss - m.ts * m.ts }

  predicate SameKind(obs: seq<Observation>) {
    forall o :: o in obs ==> o.kind == obs[0].kind
  }

  predicate RankGuard(m: Moments) {
    Determinant(m) <= RANK_DEFICIENT_TOLERANCE * (if m.tt * m.ss >= 1.0 then m.tt * m.ss else 1.0)
  }

  function FitSweep(obs: seq<Observation>): Result<Fit> {
    if |obs| < 3 then Raised(TooFewObservations)
    else if !SameKind(obs) then Raised(MixedKinds)
    else
      var m := MomentsOf(obs);
      if RankGuard(m) then Raised(RankDeficient)
      else
        GuardExcludesZero(m);
        var d := Determinant(m);
        var b, c := (m.ss * m.tv - m.ts * m.sv) / d, (m.tt * m.sv - m.ts * m.tv) / d;
        Ok(Fit(obs[0].kind, Mean(Values(obs)) - b * Mean(Tokens(obs)) - c * Mean(Batches(obs)), b, c, |obs|))
  }

  /** The guard is a positive threshold, so it alone excludes a zero determinant. */
  lemma GuardExcludesZero(m: Moments)
    requires !RankGuard(m)
    ensures Determinant(m) > 0.0
  {
  }

  // --- sums are linear ------------------------------------------------------

  /** A dot product after centring, from the sums before it. */
  function CentredValue(dot: real, sx: real, sy: real, m: real, k: real, n: real): real {
    dot - m * sy - k * sx + m * k * n
  }

  function Term(x: real, y: real): real { x * y }

  lemma {:induction false} DotStep(xs: seq<real>, ys: seq<real>)
    requires |xs| == |ys| && xs != []
    ensures Dot(xs, ys) == Term(xs[0], ys[0]) + Dot(xs[1..], ys[1..])
    ensures Sum(xs) == xs[0] + Sum(xs[1..]) && |xs| as real == |xs[1..]| as real + 1.0
  {
  }

  lemma {:induction false} CentredStep(xs: seq<real>, m: real)
    requires xs != []
    ensures Centred(xs, m)[0] == xs[0] - m && Centred(xs, m)[1..] == Centred(xs[1..], m)
  {
  }

  lemma NoTerms()
    ensures Dot([], []) == 0.0 && Sum([]) == 0.0 && forall m, k :: CentredValue(0.0, 0.0, 0.0, m, k, 0.0) == 0.0
  {
  }

  lemma {:induction false} CentredDot(xs: seq<real>, ys: seq<real>, m: real, k: real)
    requires |xs| == |ys|
    ensures Dot(Centred(xs, m), Centred(ys, k)) == CentredValue(Dot(xs, ys), Sum(xs), Sum(ys), m, k, |xs| as real)
  {
    hide Dot; hide Sum; hide Centred; hide CentredValue; hide Term;
    if xs == [] {
      NoTerms();
      assert Centred(xs, m) == [] && Centred(ys, k) == [] && ys == [];
    } else {
      CentredDot(xs[1..], ys[1..], m, k);
      CentredStep(xs, m);
      CentredStep(ys, k);
      DotStep(Centred(xs, m), Centred(ys, k));
      DotStep(xs, ys);
      DotStep(ys, xs);
      CentredTerm(xs[0], ys[0], m, k, |xs[1..]| as real, Sum(xs[1..]), Sum(ys[1..]), Dot(xs[1..], ys[1..]));
    }
  }

  lemma CentredTerm(x: real, y: real, m: real, k: real, n: real, sx: real, sy: real, dot: real)
    ensures Term(x - m, y - k) + CentredValue(dot, sx, sy, m, k, n)
            == CentredValue(Term(x, y) + dot, x + sx, y + sy, m, k, n + 1.0)
  {
  }

  /** a + b * t + c * s, against the sums it is built from. */
  function Linear(a: real, b: real, c: real, x: real, t: real, s: real): real { a * x + b * t + c * s }

  lemma {:induction false} ResidualDot(ys: seq<real>, ts: seq<real>, ss: seq<real>, a: real, b: real, c: real, xs: seq<real>)
    requires |ys| == |ts| == |ss| == |xs|
    ensures Dot(Residuals(ys, ts, ss, a, b, c), xs) == Dot(ys, xs) - Linear(a, b, c, Sum(xs), Dot(ts, xs), Dot(ss, xs))
  {
    hide Dot; hide Sum; hide Linear; hide Term; hide Residuals;
    if ys == [] {
      NoTerms();
      NoPredictions(a, b, c);
      assert Residuals(ys, ts, ss, a, b, c) == [] && ts == ss == xs == [];
    } else {
      ResidualDot(ys[1..], ts[1..], ss[1..], a, b, c, xs[1..]);
      ResidualStep(ys, ts, ss, a, b, c);
      DotStep(Residuals(ys, ts, ss, a, b, c), xs);
      DotStep(ys, xs);
      DotStep(ts, xs);
      DotStep(ss, xs);
      DotStep(xs, xs);
      ResidualTerm(ys[0], ts[0], ss[0], xs[0], a, b, c, Sum(xs[1..]), Dot(ts[1..], xs[1..]), Dot(ss[1..], xs[1..]));
    }
  }

  lemma NoPredictions(a: real, b: real, c: real)
    ensures Linear(a, b, c, 0.0, 0.0, 0.0) == 0.0
  {
  }

  lemma {:induction false} ResidualStep(ys: seq<real>, ts: seq<real>, ss: seq<real>, a: real, b: real, c: real)
    requires |ys| == |ts| == |ss| && ys != []
    ensures Residuals(ys, ts, ss, a, b, c)[0] == ys[0] - Linear(a, b, c, 1.0, ts[0], ss[0])
    ensures Residuals(ys, ts, ss, a, b, c)[1..] == Residuals(ys[1..], ts[1..], ss[1..], a, b, c)
  {
  }

  lemma ResidualTerm(y: real, t: real, s: real, x: real, a: real, b: real, c: real, sx: real, tx: real, ssx: real)
    ensures Term(y - Linear(a, b, c, 1.0, t, s), x) - Linear(a, b, c, sx, tx, ssx)
            == Term(y, x) - Linear(a, b, c, x + sx, Term(t, x) + tx, Term(s, x) + ssx)
  {
    assert (y - (a + b * t + c * s)) * x == y * x - a * x - b * (t * x) - c * (s * x);
  }

  lemma Distribute(k: real, x: real, y: real)
    ensures k * (x + y) == k * x + k * y
  {
  }

  lemma {:induction false} ResidualSum(ys: seq<real>, ts: seq<real>, ss: seq<real>, a: real, b: real, c: real)
    requires |ys| == |ts| == |ss|
    ensures Sum(Residuals(ys, ts, ss, a, b, c)) == Sum(ys) - a * |ys| as real - b * Sum(ts) - c * Sum(ss)
  {
    if ys != [] {
      ResidualSum(ys[1..], ts[1..], ss[1..], a, b, c);
      assert |ys| as real == |ys[1..]| as real + 1.0;
      Distribute(a, |ys[1..]| as real, 1.0);
      Distribute(b, ts[0], Sum(ts[1..]));
      Distribute(c, ss[0], Sum(ss[1..]));
    }
  }

  lemma {:induction false} DotCommutes(xs: seq<real>, ys: seq<real>)
    requires |xs| == |ys|
    ensures Dot(xs, ys) == Dot(ys, xs)
  {
    if xs != [] {
      DotCommutes(xs[1..], ys[1..]);
    }
  }

  // --- the normal equations -------------------------------------------------

  /** Cramer's rule. */
  lemma Cramer(m: Moments, b: real, c: real)
    requires Determinant(m) != 0.0
    requires b == (m.ss * m.tv - m.ts * m.sv) / Determinant(m) && c == (m.tt * m.sv - m.ts * m.tv) / Determinant(m)
    ensures b * m.tt + c * m.ts == m.tv && b * m.ts + c * m.ss == m.sv
  {
    var d := Determinant(m);
    var p, q := m.ss * m.tv - m.ts * m.sv, m.tt * m.sv - m.ts * m.tv;
    Quotient(p, d, b);
    Quotient(q, d, c);
    SolvesFirst(m, p, q);
    Cancel(b * m.tt + c * m.ts, m.tv, d) by { Combine(b, c, d, m.tt, m.ts, p, q); }
    Cancel(b * m.ts + c * m.ss, m.sv, d) by { Combine(b, c, d, m.ts, m.ss, p, q); }
  }

  lemma Quotient(p: real, d: real, x: real)
    requires d != 0.0 && x == p / d
    ensures x * d == p
  {
  }

  lemma SolvesFirst(m: Moments, p: real, q: real)
    requires p == m.ss * m.tv - m.ts * m.sv && q == m.tt * m.sv - m.ts * m.tv
    ensures p * m.tt + q * m.ts == m.tv * Determinant(m)
    ensures p * m.ts + q * m.ss == m.sv * Determinant(m)
  {
  }

  lemma Combine(b: real, c: real, d: real, x: real, y: real, p: real, q: real)
    requires b * d == p && c * d == q
    ensures (b * x + c * y) * d == p * x + q * y
  {
    assert (b * x + c * y) * d == (b * d) * x + (c * d) * y;
  }

  lemma Cancel(x: real, y: real, d: real)
    requires d != 0.0 && x * d == y * d
    ensures x == y
  {
    assert (x - y) * d == 0.0;
  }

  lemma {:induction false} MeanTimesCount(xs: seq<real>)
    requires xs != []
    ensures Mean(xs) * |xs| as real == Sum(xs)
  {
    hide Sum;
  }

  lemma {:induction false} CentredMoment(xs: seq<real>, ys: seq<real>)
    requires |xs| == |ys| && xs != []
    ensures Dot(Centred(xs, Mean(xs)), Centred(ys, Mean(ys))) == Moment(Dot(xs, ys), Mean(xs), Sum(ys))
  {
    hide Dot; hide Sum; hide Centred; hide CentredValue; hide Mean; hide Moment;
    CentredDot(xs, ys, Mean(xs), Mean(ys));
    MeanTimesCount(xs);
    Balanced(Mean(xs), Mean(ys), |xs| as real, Sum(xs), Sum(ys), Dot(xs, ys));
  }

  function Moment(dot: real, mean: real, sum: real): real { dot - mean * sum }

  lemma Balanced(m: real, k: real, n: real, sx: real, sy: real, dot: real)
    requires m * n == sx
    ensures CentredValue(dot, sx, sy, m, k, n) == Moment(dot, m, sy)
  {
    assert m * k * n == k * (m * n);
  }

  /** The sums a fit is computed from. */
  datatype Sums = Sums(n: real, t: real, s: real, v: real, tt: real, ss: real, ts: real, tv: real, sv: real)

  function SumsOf(obs: seq<Observation>): Sums {
    var t, s, v := Tokens(obs), Batches(obs), Values(obs);
    Sums(|obs| as real, Sum(t), Sum(s), Sum(v), Dot(t, t), Dot(s, s), Dot(t, s), Dot(t, v), Dot(s, v))
  }

  /** The coefficients solve the centred system, and the intercept passes through the means. */
  predicate Solves(f: Fit, x: Sums, tm: real, sm: real, vm: real) {
    && tm * x.n == x.t && sm * x.n == x.s && vm * x.n == x.v
    && f.intercept == vm - f.tokenCoefficient * tm - f.batchCoefficient * sm
    && f.tokenCoefficient * Moment(x.tt, tm, x.t) + f.batchCoefficient * Moment(x.ts, tm, x.s) == Moment(x.tv, tm, x.v)
    && f.tokenCoefficient * Moment(x.ts, tm, x.s) + f.batchCoefficient * Moment(x.ss, sm, x.s) == Moment(x.sv, sm, x.v)
  }

  predicate ResidualsBalance(f: Fit, x: Sums) {
    && x.v - f.intercept * x.n - f.tokenCoefficient * x.t - f.batchCoefficient * x.s == 0.0
    && x.tv - f.intercept * x.t - f.tokenCoefficient * x.tt - f.batchCoefficient * x.ts == 0.0
    && x.sv - f.intercept * x.s - f.tokenCoefficient * x.ts - f.batchCoefficient * x.ss == 0.0
  }

  lemma SolutionBalances(f: Fit, x: Sums, tm: real, sm: real, vm: real)
    requires Solves(f, x, tm, sm, vm)
    ensures ResidualsBalance(f, x)
  {
    hide Solves; hide Moment;
    ValuesBalance(f, x, tm, sm, vm);
    TokensBalance(f, x, tm, sm, vm);
    BatchesBalance(f, x, tm, sm, vm);
  }

  lemma ValuesBalance(f: Fit, x: Sums, tm: real, sm: real, vm: real)
    requires Solves(f, x, tm, sm, vm)
    ensures x.v - f.intercept * x.n - f.tokenCoefficient * x.t - f.batchCoefficient * x.s == 0.0
  {
    hide Moment;
    SumVanishes(x.n, f.intercept, f.tokenCoefficient, f.batchCoefficient, tm, sm, vm, x.t, x.s, x.v);
  }

  lemma TokensBalance(f: Fit, x: Sums, tm: real, sm: real, vm: real)
    requires Solves(f, x, tm, sm, vm)
    ensures x.tv - f.intercept * x.t - f.tokenCoefficient * x.tt - f.batchCoefficient * x.ts == 0.0
  {
    var m := Moments(Moment(x.tt, tm, x.t), 0.0, Moment(x.ts, tm, x.s), Moment(x.tv, tm, x.v), 0.0);
    TokenEquation(f.intercept, f.tokenCoefficient, f.batchCoefficient, tm, sm, vm, x.t, x.s, x.v, x.n, x.tt, x.ts, x.tv, m);
  }

  lemma BatchesBalance(f: Fit, x: Sums, tm: real, sm: real, vm: real)
    requires Solves(f, x, tm, sm, vm)
    ensures x.sv - f.intercept * x.s - f.tokenCoefficient * x.ts - f.batchCoefficient * x.ss == 0.0
  {
    var m := Moments(0.0, Moment(x.ss, sm, x.s), Moment(x.ts, tm, x.s), 0.0, Moment(x.sv, sm, x.v));
    BatchEquation(f.intercept, f.tokenCoefficient, f.batchCoefficient, tm, sm, vm, x.t, x.s, x.v, x.n, x.ss, x.ts, x.sv, m);
  }

  lemma {:induction false} FitSolves(obs: seq<Observation>)
    requires FitSweep(obs).Ok?
    ensures obs != []
    ensures Solves(FitSweep(obs).value, SumsOf(obs), Mean(Tokens(obs)), Mean(Batches(obs)), Mean(Values(obs)))
  {
    hide Dot; hide Sum; hide Tokens; hide Batches; hide Values; hide Centred; hide Mean; hide Determinant; hide RankGuard;
    hide Moment;
    var t, s, v, m := Tokens(obs), Batches(obs), Values(obs), MomentsOf(obs);
    GuardExcludesZero(m);
    Cramer(m, FitSweep(obs).value.tokenCoefficient, FitSweep(obs).value.batchCoefficient);
    MeanTimesCount(t);
    MeanTimesCount(s);
    MeanTimesCount(v);
    CentredMoment(t, t);
    CentredMoment(s, s);
    CentredMoment(t, s);
    CentredMoment(t, v);
    CentredMoment(s, v);
  }

  /** The residuals of an accepted fit sum to zero and are orthogonal to tokens and batch. */
  lemma {:induction false} NormalEquations(obs: seq<Observation>)
    requires FitSweep(obs).Ok?
    ensures var f := FitSweep(obs).value;
            var r := Residuals(Values(obs), Tokens(obs), Batches(obs), f.intercept, f.tokenCoefficient, f.batchCoefficient);
            Sum(r) == 0.0 && Dot(r, Tokens(obs)) == 0.0 && Dot(r, Batches(obs)) == 0.0
  {
    hide FitSweep; hide Solves; hide Mean; hide Dot; hide Sum; hide Residuals; hide Tokens; hide Batches; hide Values;
    var f, t, s, v := FitSweep(obs).value, Tokens(obs), Batches(obs), Values(obs);
    FitSolves(obs);
    SolutionBalances(f, SumsOf(obs), Mean(t), Mean(s), Mean(v));
    ResidualSum(v, t, s, f.intercept, f.tokenCoefficient, f.batchCoefficient);
    ResidualDot(v, t, s, f.intercept, f.tokenCoefficient, f.batchCoefficient, t);
    ResidualDot(v, t, s, f.intercept, f.tokenCoefficient, f.batchCoefficient, s);
    DotCommutes(v, t);
    DotCommutes(v, s);
    DotCommutes(s, t);
  }

  lemma SumVanishes(n: real, a: real, b: real, c: real, tm: real, sm: real, vm: real, st: real, ss: real, sv: real)
    requires a == vm - b * tm - c * sm && tm * n == st && sm * n == ss && vm * n == sv
    ensures sv - a * n - b * st - c * ss == 0.0
  {
    assert a * n == vm * n - b * (tm * n) - c * (sm * n);
  }

  lemma TokenEquation(a: real, b: real, c: real, tm: real, sm: real, vm: real, st: real, ss: real, sv: real, n: real,
                      tt: real, ts: real, tv: real, m: Moments)
    requires a == vm - b * tm - c * sm && tm * n == st && sm * n == ss && vm * n == sv
    requires m.tt == tt - tm * st && m.ts == ts - tm * ss && m.tv == tv - tm * sv && b * m.tt + c * m.ts == m.tv
    ensures tv - a * st - b * tt - c * ts == 0.0
  {
    var x, y, z := tm * st, tm * ss, tm * sv;
    assert a * st == vm * st - b * x - c * (sm * st);
    Swap(vm, tm, n, st, sv);
    Swap(sm, tm, n, st, ss);
    assert b * m.tt == b * tt - b * x && c * m.ts == c * ts - c * y;
  }

  lemma BatchEquation(a: real, b: real, c: real, tm: real, sm: real, vm: real, st: real, ss: real, sv: real, n: real,
                      s2: real, ts: real, v2: real, m: Moments)
    requires a == vm - b * tm - c * sm && tm * n == st && sm * n == ss && vm * n == sv
    requires m.ss == s2 - sm * ss && m.ts == ts - tm * ss && m.sv == v2 - sm * sv && b * m.ts + c * m.ss == m.sv
    ensures v2 - a * ss - b * ts - c * s2 == 0.0
  {
    assert a * ss == vm * ss - b * (tm * ss) - c * (sm * ss);
    Swap(vm, sm, n, ss, sv);
    assert b * m.ts == b * ts - b * (tm * ss) && c * m.ss == c * s2 - c * (sm * ss);
  }

  /** Two means times each other's sums agree. */
  lemma Swap(x: real, y: real, n: real, sy: real, sx: real)
    requires y * n == sy && x * n == sx
    ensures x * sy == y * sx
  {
    assert x * (y * n) == y * (x * n);
  }

  // --- the minimum ----------------------------------------------------------

  /** What changing the coefficients adds to each prediction. */
  function Shifted(ts: seq<real>, ss: seq<real>, a: real, b: real, c: real): (r: seq<real>)
    requires |ts| == |ss|
    ensures |r| == |ts|
  {
    if ts == [] then [] else [a + b * ts[0] + c * ss[0]] + Shifted(ts[1..], ss[1..], a, b, c)
  }

  lemma {:induction false} ErrorExpands(ys: seq<real>, ts: seq<real>, ss: seq<real>, a: real, b: real, c: real,
                                        a': real, b': real, c': real)
    requires |ys| == |ts| == |ss|
    ensures var r, r', p := Residuals(ys, ts, ss, a, b, c), Residuals(ys, ts, ss, a', b', c'),
                            Shifted(ts, ss, a - a', b - b', c - c');
            Dot(r', r') == Dot(r, r) + 2.0 * Dot(r, p) + Dot(p, p)
  {
    if ys != [] {
      ErrorExpands(ys[1..], ts[1..], ss[1..], a, b, c, a', b', c');
      var r, p := ys[0] - (a + b * ts[0] + c * ss[0]), (a - a') + (b - b') * ts[0] + (c - c') * ss[0];
      assert ys[0] - (a' + b' * ts[0] + c' * ss[0]) == r + p;
      Square(r, p);
    }
  }

  lemma Square(r: real, p: real)
    ensures (r + p) * (r + p) == r * r + 2.0 * (r * p) + p * p
  {
  }

  lemma {:induction false} ShiftedDot(rs: seq<real>, ts: seq<real>, ss: seq<real>, a: real, b: real, c: real)
    requires |rs| == |ts| == |ss|
    ensures Dot(rs, Shifted(ts, ss, a, b, c)) == Linear(a, b, c, Sum(rs), Dot(rs, ts), Dot(rs, ss))
  {
    hide Dot; hide Sum; hide Linear; hide Term; hide Shifted;
    if rs == [] {
      NoTerms();
      NoPredictions(a, b, c);
      assert Shifted(ts, ss, a, b, c) == [] && ts == ss == [];
    } else {
      ShiftedDot(rs[1..], ts[1..], ss[1..], a, b, c);
      ShiftedStep(ts, ss, a, b, c);
      DotStep(rs, Shifted(ts, ss, a, b, c));
      DotStep(rs, ts);
      DotStep(rs, ss);
      ShiftedTerm(rs[0], ts[0], ss[0], a, b, c, Sum(rs[1..]), Dot(rs[1..], ts[1..]), Dot(rs[1..], ss[1..]));
    }
  }

  lemma {:induction false} ShiftedStep(ts: seq<real>, ss: seq<real>, a: real, b: real, c: real)
    requires |ts| == |ss| && ts != []
    ensures Shifted(ts, ss, a, b, c)[0] == Linear(a, b, c, 1.0, ts[0], ss[0])
    ensures Shifted(ts, ss, a, b, c)[1..] == Shifted(ts[1..], ss[1..], a, b, c)
  {
  }

  lemma ShiftedTerm(r: real, t: real, s: real, a: real, b: real, c: real, sr: real, rt: real, rs: real)
    ensures Term(r, Linear(a, b, c, 1.0, t, s)) + Linear(a, b, c, sr, rt, rs)
            == Linear(a, b, c, r + sr, Term(r, t) + rt, Term(r, s) + rs)
  {
    assert r * (a + b * t + c * s) == a * r + b * (r * t) + c * (r * s);
  }

  lemma {:induction false} DotSelf(xs: seq<real>)
    ensures Dot(xs, xs) >= 0.0
    ensures Dot(xs, xs) == 0.0 ==> forall i :: 0 <= i < |xs| ==> xs[i] == 0.0
  {
    hide Dot; hide Term;
    NoTerms();
    if xs != [] {
      DotSelf(xs[1..]);
      DotStep(xs, xs);
      SquarePositive(xs[0]);
      assert forall i :: 1 <= i < |xs| ==> xs[i] == xs[1..][i - 1];
    }
  }

  lemma PositiveTerm(x: real, y: real)
    requires x > 0.0 && y > 0.0
    ensures Term(x, y) > 0.0
  {
  }

  lemma NegatedTerm(x: real)
    ensures Term(-x, -x) == Term(x, x)
  {
  }

  lemma SquarePositive(x: real)
    ensures Term(x, x) >= 0.0 && (x != 0.0 ==> Term(x, x) > 0.0)
  {
    if x == 0.0 {
      assert Term(x, x) == Term(0.0, 0.0) == 0.0;
    } else {
      hide Term;
      NegatedTerm(x);
      if x > 0.0 { PositiveTerm(x, x); } else { PositiveTerm(-x, -x); }
    }
  }

  /** No other linear model has a smaller squared error. */
  lemma FitIsOptimal(obs: seq<Observation>, a: real, b: real, c: real)
    requires FitSweep(obs).Ok?
    ensures var f := FitSweep(obs).value;
            SquaredError(obs, f.intercept, f.tokenCoefficient, f.batchCoefficient) <= SquaredError(obs, a, b, c)
  {
    hide Dot; hide Sum; hide Residuals; hide Tokens; hide Batches; hide Values; hide FitSweep; hide Shifted;
    var f := FitSweep(obs).value;
    var t, s, v := Tokens(obs), Batches(obs), Values(obs);
    var r := Residuals(v, t, s, f.intercept, f.tokenCoefficient, f.batchCoefficient);
    var p := Shifted(t, s, f.intercept - a, f.tokenCoefficient - b, f.batchCoefficient - c);
    NormalEquations(obs);
    ErrorExpands(v, t, s, f.intercept, f.tokenCoefficient, f.batchCoefficient, a, b, c);
    ShiftedDot(r, t, s, f.intercept - a, f.tokenCoefficient - b, f.batchCoefficient - c);
    DotSelf(p);
  }

  // --- uniqueness -----------------------------------------------------------

  lemma {:induction false} DotWithZero(ys: seq<real>, xs: seq<real>)
    requires |ys| == |xs| && forall i :: 0 <= i < |xs| ==> xs[i] == 0.0
    ensures Dot(ys, xs) == 0.0 && Sum(xs) == 0.0
  {
    if xs != [] {
      assert xs[0] == 0.0 && forall i :: 0 <= i < |xs[1..]| ==> xs[1..][i] == xs[i + 1];
      DotWithZero(ys[1..], xs[1..]);
    }
  }

  lemma {:induction false} ShiftedSum(ts: seq<real>, ss: seq<real>, a: real, b: real, c: real)
    requires |ts| == |ss|
    ensures Sum(Shifted(ts, ss, a, b, c)) == a * |ts| as real + b * Sum(ts) + c * Sum(ss)
  {
    if ts != [] {
      ShiftedSum(ts[1..], ss[1..], a, b, c);
      assert |ts| as real == |ts[1..]| as real + 1.0;
      Distribute(a, |ts[1..]| as real, 1.0);
      Distribute(b, ts[0], Sum(ts[1..]));
      Distribute(c, ss[0], Sum(ss[1..]));
    }
  }

  /** A change of coefficients that changes no prediction is no change. */
  lemma NoSilentChange(x: Sums, tm: real, sm: real, a: real, b: real, c: real)
    requires x.n != 0.0 && tm * x.n == x.t && sm * x.n == x.s
    requires Moment(x.tt, tm, x.t) * Moment(x.ss, sm, x.s) - Moment(x.ts, tm, x.s) * Moment(x.ts, tm, x.s) != 0.0
    requires a * x.n + b * x.t + c * x.s == 0.0
    requires a * x.t + b * x.tt + c * x.ts == 0.0 && a * x.s + b * x.ts + c * x.ss == 0.0
    ensures a == 0.0 && b == 0.0 && c == 0.0
  {
    var tt, ss, ts := Moment(x.tt, tm, x.t), Moment(x.ss, sm, x.s), Moment(x.ts, tm, x.s);
    InterceptFollows(x, tm, sm, a, b, c);
    CentredSystem(x, tm, sm, a, b, c);
    Independent(tt, ss, ts, b, c);
  }

  lemma InterceptFollows(x: Sums, tm: real, sm: real, a: real, b: real, c: real)
    requires x.n != 0.0 && tm * x.n == x.t && sm * x.n == x.s && a * x.n + b * x.t + c * x.s == 0.0
    ensures a == -(b * tm) - c * sm
  {
    assert (a + b * tm + c * sm) * x.n == a * x.n + b * (tm * x.n) + c * (sm * x.n);
    Cancel(a + b * tm + c * sm, 0.0, x.n);
  }

  lemma CentredSystem(x: Sums, tm: real, sm: real, a: real, b: real, c: real)
    requires tm * x.n == x.t && sm * x.n == x.s && a == -(b * tm) - c * sm
    requires a * x.t + b * x.tt + c * x.ts == 0.0 && a * x.s + b * x.ts + c * x.ss == 0.0
    ensures b * Moment(x.tt, tm, x.t) + c * Moment(x.ts, tm, x.s) == 0.0
    ensures b * Moment(x.ts, tm, x.s) + c * Moment(x.ss, sm, x.s) == 0.0
  {
    Swap(sm, tm, x.n, x.t, x.s);
    assert a * x.t == -(b * (tm * x.t)) - c * (sm * x.t);
    assert a * x.s == -(b * (tm * x.s)) - c * (sm * x.s);
    Distribute(b, x.tt, -(tm * x.t));
    Distribute(c, x.ts, -(tm * x.s));
    Distribute(b, x.ts, -(tm * x.s));
    Distribute(c, x.ss, -(sm * x.s));
  }

  lemma Independent(tt: real, ss: real, ts: real, b: real, c: real)
    requires tt * ss - ts * ts != 0.0 && b * tt + c * ts == 0.0 && b * ts + c * ss == 0.0
    ensures b == 0.0 && c == 0.0
  {
    var d := tt * ss - ts * ts;
    assert b * d == (b * tt + c * ts) * ss - (b * ts + c * ss) * ts;
    assert c * d == (b * ts + c * ss) * tt - (b * tt + c * ts) * ts;
    Cancel(b, 0.0, d);
    Cancel(c, 0.0, d);
  }

  /** The fit is the only model with the least squared error. */
  lemma FitIsUnique(obs: seq<Observation>, a: real, b: real, c: real)
    requires FitSweep(obs).Ok?
    requires var f := FitSweep(obs).value;
             SquaredError(obs, a, b, c) == SquaredError(obs, f.intercept, f.tokenCoefficient, f.batchCoefficient)
    ensures var f := FitSweep(obs).value; a == f.intercept && b == f.tokenCoefficient && c == f.batchCoefficient
  {
    hide Dot; hide Sum; hide Residuals; hide Tokens; hide Batches; hide Values; hide FitSweep; hide Shifted; hide Mean;
    hide Moment;
    var f := FitSweep(obs).value;
    var t, s, v := Tokens(obs), Batches(obs), Values(obs);
    var x, y, z := f.intercept - a, f.tokenCoefficient - b, f.batchCoefficient - c;
    var r, p := Residuals(v, t, s, f.intercept, f.tokenCoefficient, f.batchCoefficient), Shifted(t, s, x, y, z);
    NormalEquations(obs);
    ErrorExpands(v, t, s, f.intercept, f.tokenCoefficient, f.batchCoefficient, a, b, c);
    ShiftedDot(r, t, s, x, y, z);
    DotSelf(p);
    SilentChangeVanishes(obs, x, y, z);
  }

  /** On an accepted sweep only the zero change leaves every prediction as it is. */
  lemma {:induction false} SilentChangeVanishes(obs: seq<Observation>, a: real, b: real, c: real)
    requires FitSweep(obs).Ok?
    requires forall i :: 0 <= i < |obs| ==> Shifted(Tokens(obs), Batches(obs), a, b, c)[i] == 0.0
    ensures a == 0.0 && b == 0.0 && c == 0.0
  {
    hide Dot; hide Sum; hide Tokens; hide Batches; hide Values; hide FitSweep; hide Shifted; hide Mean; hide Moment;
    var t, s := Tokens(obs), Batches(obs);
    var p := Shifted(t, s, a, b, c);
    DotWithZero(t, p);
    DotWithZero(s, p);
    ShiftedSum(t, s, a, b, c);
    ShiftedDot(t, t, s, a, b, c);
    ShiftedDot(s, t, s, a, b, c);
    DotCommutes(s, t);
    FitHasRank(obs);
    NoSilentChange(SumsOf(obs), Mean(t), Mean(s), a, b, c);
  }

  lemma {:induction false} FitHasRank(obs: seq<Observation>)
    requires FitSweep(obs).Ok?
    ensures |obs| >= 3
    ensures var x, tm, sm := SumsOf(obs), Mean(Tokens(obs)), Mean(Batches(obs));
            && tm * x.n == x.t && sm * x.n == x.s
            && Moment(x.tt, tm, x.t) * Moment(x.ss, sm, x.s) - Moment(x.ts, tm, x.s) * Moment(x.ts, tm, x.s) != 0.0
  {
    hide Dot; hide Sum; hide Tokens; hide Batches; hide Values; hide Centred; hide Mean; hide RankGuard; hide Moment;
    var t, s := Tokens(obs), Batches(obs);
    GuardExcludesZero(MomentsOf(obs));
    MeanTimesCount(t);
    MeanTimesCount(s);
    CentredMoment(t, t);
    CentredMoment(s, s);
    CentredMoment(t, s);
  }

  lemma {:induction false} ShiftedZero(obs: seq<Observation>, a: real, b: real, c: real)
    requires forall o :: o in obs ==> Linear(a, b, c, 1.0, o.tokens as real, o.batchSize as real) == 0.0
    ensures forall i :: 0 <= i < |obs| ==> Shifted(Tokens(obs), Batches(obs), a, b, c)[i] == 0.0
  {
    hide Linear;
    if obs != [] {
      assert obs[0] in obs;
      ShiftedZero(obs[1..], a, b, c);
      ShiftedStep(Tokens(obs), Batches(obs), a, b, c);
      var p := Shifted(Tokens(obs), Batches(obs), a, b, c);
      assert forall i :: 1 <= i < |obs| ==> p[i] == p[1..][i - 1];
    }
  }

  /** A sweep whose tokens and batch sizes are linearly related is always refused. */
  lemma CollinearSweepIsRefused(obs: seq<Observation>, a: real, b: real, c: real)
    requires |obs| >= 3 && SameKind(obs) && (b != 0.0 || c != 0.0)
    requires forall o :: o in obs ==> Linear(a, b, c, 1.0, o.tokens as real, o.batchSize as real) == 0.0
    ensures FitSweep(obs) == Raised(RankDeficient)
  {
    hide Tokens; hide Batches; hide Shifted; hide MomentsOf; hide RankGuard; hide Linear;
    ShiftedZero(obs, a, b, c);
    if FitSweep(obs).Ok? { SilentChangeVanishes(obs, a, b, c); }
  }

  // --- what is refused ------------------------------------------------------

  /** The guard lets a sweep pass exactly if its determinant exceeds the tolerance, both as it is and
      relative to the spread of tokens and batch sizes. */
  lemma GuardIsScaleAware(m: Moments)
    ensures !RankGuard(m) <==>
              && m.tt * m.ss - m.ts * m.ts > 0.000000000001
              && m.tt * m.ss - m.ts * m.ts > 0.000000000001 * (m.tt * m.ss)
  {
  }

  /** Why a sweep is refused, and what an accepted fit says of it. */
  lemma FitSaysWhy(obs: seq<Observation>)
    ensures var r := FitSweep(obs);
            var mixed := exists x, y :: x in obs && y in obs && x.kind != y.kind;
            && (r == Raised(TooFewObservations) <==> |obs| < 3)
            && (r == Raised(MixedKinds) <==> |obs| >= 3 && mixed)
            && (|obs| >= 3 && !mixed ==> (r == Raised(RankDeficient) <==> RankGuard(MomentsOf(obs))))
            && (r.Ok? ==> r.value.count == |obs| && forall o :: o in obs ==> o.kind == r.value.kind)
  {
    hide MomentsOf; hide RankGuard; hide Mean; hide Tokens; hide Batches; hide Values; hide Determinant;
    if |obs| >= 3 {
      assert obs[0] in obs;
    }
  }

  lemma {:induction false} ExactValuesLeaveNothing(obs: seq<Observation>, a: real, b: real, c: real)
    requires forall o :: o in obs ==> o.value == Linear(a, b, c, 1.0, o.tokens as real, o.batchSize as real)
    ensures SquaredError(obs, a, b, c) == 0.0
  {
    hide Linear; hide Dot;
    NoTerms();
    if obs == [] {
      assert Residuals(Values(obs), Tokens(obs), Batches(obs), a, b, c) == [];
    } else {
      assert obs[0] in obs;
      ExactValuesLeaveNothing(obs[1..], a, b, c);
      ResidualStep(Values(obs), Tokens(obs), Batches(obs), a, b, c);
      var r := Residuals(Values(obs), Tokens(obs), Batches(obs), a, b, c);
      DotStep(r, r);
      assert Term(0.0, 0.0) == 0.0;
    }
  }

  /** Observations without noise give back the model they came from. */
  lemma ExactSweepIsRecovered(obs: seq<Observation>, a: real, b: real, c: real)
    requires FitSweep(obs).Ok?
    requires forall o :: o in obs ==> o.value == Linear(a, b, c, 1.0, o.tokens as real, o.batchSize as real)
    ensures var f := FitSweep(obs).value; f.intercept == a && f.tokenCoefficient == b && f.batchCoefficient == c
  {
    hide FitSweep; hide Linear; hide Residuals; hide Dot;
    var f := FitSweep(obs).value;
    ExactValuesLeaveNothing(obs, a, b, c);
    FitIsOptimal(obs, a, b, c);
    DotSelf(Residuals(Values(obs), Tokens(obs), Batches(obs), f.intercept, f.tokenCoefficient, f.batchCoefficient));
    FitIsUnique(obs, a, b, c);
  }
}
