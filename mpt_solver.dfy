/**
 * The mean-variance portfolio engine (`MPTSolver`): portfolio metrics, the
 * construction of the optimisation problem for each solver mode, the efficient
 * frontier over a grid of target returns, the mapping of a 1-10 risk score to
 * one frontier point, and the allocation plan for an investment amount.
 *
 * Arithmetic is on `real`. The two foreign numeric routines, the square root
 * and the SLSQP minimiser, are carried as function-typed fields of `Numerics`,
 * so nothing is assumed about them beyond what the code itself checks.
 */
module MptSolver {
  import opened Wrappers
  import PyText

  // ---------------------------------------------------------------------
  // Configuration: the fixed fund universe
  // ---------------------------------------------------------------------

  const FundNames: seq<string> := [
    "货币基金A", "债券基金B", "混合基金C", "股票基金D",
    "指数基金E", "QDII基金F", "REITs基金G", "商品基金H",
    "稳健理财I", "成长精选J"
  ]

  const ExpectedReturns: seq<real> := [
    0.025, 0.045, 0.085, 0.155, 0.125, 0.105, 0.095, 0.135, 0.035, 0.185
  ]

  const CovarianceMatrix: seq<seq<real>> := [
    [0.0008, 0.0003, 0.0001, 0.0000, 0.0001, 0.0001, 0.0001, 0.0000, 0.0006, 0.0000],
    [0.0003, 0.0015, 0.0005, 0.0001, 0.0003, 0.0002, 0.0002, 0.0001, 0.0008, 0.0001],
    [0.0001, 0.0005, 0.0040, 0.0025, 0.0030, 0.0020, 0.0018, 0.0022, 0.0003, 0.0028],
    [0.0000, 0.0001, 0.0025, 0.0225, 0.0150, 0.0100, 0.0080, 0.0120, 0.0001, 0.0180],
    [0.0001, 0.0003, 0.0030, 0.0150, 0.0144, 0.0085, 0.0075, 0.0095, 0.0002, 0.0120],
    [0.0001, 0.0002, 0.0020, 0.0100, 0.0085, 0.0090, 0.0065, 0.0078, 0.0001, 0.0085],
    [0.0001, 0.0002, 0.0018, 0.0080, 0.0075, 0.0065, 0.0064, 0.0055, 0.0002, 0.0070],
    [0.0000, 0.0001, 0.0022, 0.0120, 0.0095, 0.0078, 0.0055, 0.0169, 0.0001, 0.0105],
    [0.0006, 0.0008, 0.0003, 0.0001, 0.0002, 0.0001, 0.0002, 0.0001, 0.0012, 0.0001],
    [0.0000, 0.0001, 0.0028, 0.0180, 0.0120, 0.0085, 0.0070, 0.0105, 0.0001, 0.0256]
  ]

  /** Empirical multiplier turning volatility into a max-drawdown estimate. */
  const DrawdownMultiplier: real := 2.5
  /** Weights below this are treated as noise (0.1%). */
  const SmallWeight: real := 0.001
  /** Upper end of the frontier grid, as a fraction of the best single-fund return. */
  const FrontierTopFraction: real := 0.9
  /** SLSQP's function tolerance. */
  const SolverTolerance: real := 0.000000001
  const DefaultNumPortfolios: nat := 100

  /** The statistics table: fund names, expected returns and covariances. */
  datatype AssetTable = AssetTable(names: seq<string>, expectedReturns: seq<real>, cov: seq<seq<real>>)
  {
    function N(): nat { |names| }

    /** Dimensions agree and the universe is not empty (1/N is taken). */
    predicate Valid()
    {
      |names| > 0 && |expectedReturns| == |names| && |cov| == |names|
      && forall i :: 0 <= i < |cov| ==> |cov[i]| == |names|
    }
  }

  const Table: AssetTable := AssetTable(FundNames, ExpectedReturns, CovarianceMatrix)

  /** The foreign numeric routines: `np.sqrt` and `scipy.optimize.minimize`. */
  datatype Numerics = Numerics(sqrt: real -> real, minimize: Problem -> SolverOutcome)

  // ---------------------------------------------------------------------
  // Vector arithmetic
  // ---------------------------------------------------------------------

  function Sum(w: seq<real>): real
  {
    if w == [] then 0.0 else w[0] + Sum(w[1..])
  }

  function Dot(a: seq<real>, b: seq<real>): real
    requires |a| == |b|
  {
    if a == [] then 0.0 else a[0] * b[0] + Dot(a[1..], b[1..])
  }

  function MatVec(m: seq<seq<real>>, w: seq<real>): (v: seq<real>)
    requires forall i :: 0 <= i < |m| ==> |m[i]| == |w|
    ensures |v| == |m|
  {
    seq(|m|, i requires 0 <= i < |m| => Dot(m[i], w))
  }

  /** The quadratic form wᵀΣw. */
  function Variance(t: AssetTable, w: seq<real>): real
    requires t.Valid() && |w| == t.N()
  {
    Dot(w, MatVec(t.cov, w))
  }

  function Constant(n: nat, c: real): (w: seq<real>)
    ensures |w| == n && forall i :: 0 <= i < n ==> w[i] == c
  {
    seq(n, _ => c)
  }

  /** The equal-weight vector 1/N used as the solver's start and as the fallback. */
  function EqualWeights(n: nat): (w: seq<real>)
    requires n > 0
    ensures |w| == n && forall i :: 0 <= i < n ==> w[i] == 1.0 / (n as real)
  {
    Constant(n, 1.0 / (n as real))
  }

  /** All of the money in fund `i`. */
  function Unit(n: nat, i: nat): (w: seq<real>)
    requires i < n
    ensures |w| == n && w[i] == 1.0 && forall j :: 0 <= j < n && j != i ==> w[j] == 0.0
  {
    seq(n, j => if j == i then 1.0 else 0.0)
  }

  function MaxOf(s: seq<real>): real
    requires |s| > 0
  {
    if |s| == 1 then s[0] else var m := MaxOf(s[1..]); if s[0] >= m then s[0] else m
  }

  function MinOf(s: seq<real>): real
    requires |s| > 0
  {
    if |s| == 1 then s[0] else var m := MinOf(s[1..]); if s[0] <= m then s[0] else m
  }

  // ---------------------------------------------------------------------
  // Portfolio metrics
  // ---------------------------------------------------------------------

  datatype Metrics = Metrics(expectedReturn: real, volatility: real, maxDrawdown: real)

  /**
   * Expected return wᵀr, volatility sqrt(wᵀΣw) with no clamping of the
   * quadratic form, and max drawdown 2.5 × volatility.
   */
  function PortfolioMetrics(t: AssetTable, nm: Numerics, w: seq<real>): (m: Metrics)
    requires t.Valid() && |w| == t.N()
    ensures m.expectedReturn == Dot(w, t.expectedReturns)
    ensures m.volatility == nm.sqrt(Variance(t, w))
    ensures m.maxDrawdown == DrawdownMultiplier * m.volatility
  {
    var vol := nm.sqrt(Variance(t, w));
    Metrics(Dot(w, t.expectedReturns), vol, vol * DrawdownMultiplier)
  }

  lemma {:induction false} SumConstant(n: nat, c: real)
    ensures Sum(Constant(n, c)) == (n as real) * c
  {
    if n > 0 {
      assert Constant(n, c)[1..] == Constant(n - 1, c);
      SumConstant(n - 1, c);
    }
  }

  /** The equal-weight vector sums to one. */
  lemma EqualWeightsSumToOne(n: nat)
    requires n > 0
    ensures Sum(EqualWeights(n)) == 1.0
  {
    SumConstant(n, 1.0 / (n as real));
  }

  lemma {:induction false} DotConstant(c: real, r: seq<real>)
    ensures Dot(Constant(|r|, c), r) == c * Sum(r)
  {
    if r != [] {
      assert Constant(|r|, c)[1..] == Constant(|r| - 1, c);
      DotConstant(c, r[1..]);
    }
  }

  /** The equal-weight portfolio's expected return is the mean fund return. */
  lemma EqualWeightsReturn(t: AssetTable, nm: Numerics)
    requires t.Valid()
    ensures PortfolioMetrics(t, nm, EqualWeights(t.N())).expectedReturn
            == Sum(t.expectedReturns) / (t.N() as real)
  {
    DotConstant(1.0 / (t.N() as real), t.expectedReturns);
  }

  lemma {:induction false} DotZeroLeft(b: seq<real>)
    ensures Dot(Constant(|b|, 0.0), b) == 0.0
  {
    if b != [] {
      assert Constant(|b|, 0.0)[1..] == Constant(|b| - 1, 0.0);
      DotZeroLeft(b[1..]);
    }
  }

  lemma {:induction false} DotZeroRight(a: seq<real>)
    ensures Dot(a, Constant(|a|, 0.0)) == 0.0
  {
    if a != [] {
      assert Constant(|a|, 0.0)[1..] == Constant(|a| - 1, 0.0);
      DotZeroRight(a[1..]);
    }
  }

  lemma {:induction false} DotUnitLeft(i: nat, b: seq<real>)
    requires i < |b|
    ensures Dot(Unit(|b|, i), b) == b[i]
  {
    var u := Unit(|b|, i);
    if i == 0 {
      assert u[1..] == Constant(|b| - 1, 0.0);
      DotZeroLeft(b[1..]);
    } else {
      assert u[1..] == Unit(|b| - 1, i - 1);
      DotUnitLeft(i - 1, b[1..]);
    }
  }

  lemma {:induction false} DotUnitRight(a: seq<real>, i: nat)
    requires i < |a|
    ensures Dot(a, Unit(|a|, i)) == a[i]
  {
    var u := Unit(|a|, i);
    if i == 0 {
      assert u[1..] == Constant(|a| - 1, 0.0);
      DotZeroRight(a[1..]);
    } else {
      assert u[1..] == Unit(|a| - 1, i - 1);
      DotUnitRight(a[1..], i - 1);
    }
  }

  /** Everything in one fund: that fund's return and the root of its variance. */
  lemma SingleFundMetrics(t: AssetTable, nm: Numerics, i: nat)
    requires t.Valid() && i < t.N()
    ensures PortfolioMetrics(t, nm, Unit(t.N(), i)).expectedReturn == t.expectedReturns[i]
    ensures PortfolioMetrics(t, nm, Unit(t.N(), i)).volatility == nm.sqrt(t.cov[i][i])
  {
    var u := Unit(t.N(), i);
    DotUnitLeft(i, t.expectedReturns);
    var v := MatVec(t.cov, u);
    DotUnitRight(t.cov[i], i);
    assert v[i] == t.cov[i][i];
    DotUnitLeft(i, v);
  }

  lemma {:induction false} DotBelow(w: seq<real>, r: seq<real>, hi: real)
    requires |w| == |r|
    requires forall i :: 0 <= i < |w| ==> w[i] >= 0.0 && r[i] <= hi
    ensures Dot(w, r) <= Sum(w) * hi
  {
    if w != [] {
      DotBelow(w[1..], r[1..], hi);
      assert w[0] * (hi - r[0]) >= 0.0;
    }
  }

  lemma {:induction false} DotAbove(w: seq<real>, r: seq<real>, lo: real)
    requires |w| == |r|
    requires forall i :: 0 <= i < |w| ==> w[i] >= 0.0 && r[i] >= lo
    ensures Dot(w, r) >= Sum(w) * lo
  {
    if w != [] {
      DotAbove(w[1..], r[1..], lo);
      assert w[0] * (r[0] - lo) >= 0.0;
    }
  }

  lemma {:induction false} MaxOfIsMax(s: seq<real>)
    requires |s| > 0
    ensures forall i :: 0 <= i < |s| ==> s[i] <= MaxOf(s)
    ensures exists i :: 0 <= i < |s| && s[i] == MaxOf(s)
  {
    if |s| == 1 {
      assert s[0] == MaxOf(s);
    } else {
      MaxOfIsMax(s[1..]);
      var j :| 0 <= j < |s[1..]| && s[1..][j] == MaxOf(s[1..]);
      assert s[j + 1] == MaxOf(s[1..]);
      if s[0] >= MaxOf(s[1..]) {
        assert s[0] == MaxOf(s);
      } else {
        assert s[j + 1] == MaxOf(s);
      }
    }
  }

  lemma {:induction false} MinOfIsMin(s: seq<real>)
    requires |s| > 0
    ensures forall i :: 0 <= i < |s| ==> MinOf(s) <= s[i]
    ensures exists i :: 0 <= i < |s| && s[i] == MinOf(s)
  {
    if |s| == 1 {
      assert s[0] == MinOf(s);
    } else {
      MinOfIsMin(s[1..]);
      var j :| 0 <= j < |s[1..]| && s[1..][j] == MinOf(s[1..]);
      assert s[j + 1] == MinOf(s[1..]);
      if s[0] <= MinOf(s[1..]) {
        assert s[0] == MinOf(s);
      } else {
        assert s[j + 1] == MinOf(s);
      }
    }
  }

  /**
   * A fully invested long-only portfolio earns between the worst and the best
   * single-fund return.
   */
  lemma ReturnWithinFundRange(t: AssetTable, nm: Numerics, w: seq<real>)
    requires t.Valid() && |w| == t.N()
    requires forall i :: 0 <= i < |w| ==> w[i] >= 0.0
    requires Sum(w) == 1.0
    ensures MinOf(t.expectedReturns) <= PortfolioMetrics(t, nm, w).expectedReturn <= MaxOf(t.expectedReturns)
  {
    MaxOfIsMax(t.expectedReturns);
    MinOfIsMin(t.expectedReturns);
    DotBelow(w, t.expectedReturns, MaxOf(t.expectedReturns));
    DotAbove(w, t.expectedReturns, MinOf(t.expectedReturns));
  }

  // ---------------------------------------------------------------------
  // The optimisation problem and its packaging
  // ---------------------------------------------------------------------

  datatype Objective = MaximizeReturn | MinimizeVariance

  datatype Constraint =
    | WeightsSumToOne
    | VolatilityEquals(targetRisk: real)
    | ReturnEquals(targetReturn: real)

  /** What is handed to SLSQP: objective, start point, bounds, equality constraints. */
  datatype Problem = Problem(
    objective: Objective,
    x0: seq<real>,
    bounds: seq<(real, real)>,
    constraints: seq<Constraint>,
    ftol: real)

  /** What SLSQP hands back, or that it raised. */
  datatype SolverOutcome = Raised | Finished(x: seq<real>, success: bool, message: string)

  /** What it means for `w` to meet one equality constraint. */
  predicate Meets(t: AssetTable, nm: Numerics, c: Constraint, w: seq<real>)
    requires t.Valid() && |w| == t.N()
  {
    match c
    case WeightsSumToOne => Sum(w) - 1.0 == 0.0
    case VolatilityEquals(risk) => PortfolioMetrics(t, nm, w).volatility - risk == 0.0
    case ReturnEquals(ret) => Dot(w, t.expectedReturns) - ret == 0.0
  }

  predicate WithinBounds(p: Problem, w: seq<real>)
  {
    |w| == |p.bounds| && forall i :: 0 <= i < |w| ==> p.bounds[i].0 <= w[i] <= p.bounds[i].1
  }

  /**
   * Solver-mode dispatch: a target risk (checked first) maximises return at that
   * volatility; otherwise a target return minimises variance at that return;
   * with neither, variance alone is minimised. Every mode starts from 1/N with
   * bounds (0, 1) and the sum-to-one constraint first.
   */
  function BuildProblem(n: nat, targetRisk: Option<real>, targetReturn: Option<real>): (p: Problem)
    requires n > 0
    ensures p.x0 == EqualWeights(n) && p.ftol == SolverTolerance
    ensures |p.bounds| == n && forall i :: 0 <= i < n ==> p.bounds[i] == (0.0, 1.0)
    ensures |p.constraints| >= 1 && p.constraints[0] == WeightsSumToOne
    ensures targetRisk.Some? ==>
              p.objective == MaximizeReturn && p.constraints == [WeightsSumToOne, VolatilityEquals(targetRisk.value)]
    ensures targetRisk.None? && targetReturn.Some? ==>
              p.objective == MinimizeVariance && p.constraints == [WeightsSumToOne, ReturnEquals(targetReturn.value)]
    ensures targetRisk.None? && targetReturn.None? ==>
              p.objective == MinimizeVariance && p.constraints == [WeightsSumToOne]
  {
    var bounds := seq(n, _ => (0.0, 1.0));
    if targetRisk.Some? then
      Problem(MaximizeReturn, EqualWeights(n), bounds, [WeightsSumToOne, VolatilityEquals(targetRisk.value)], SolverTolerance)
    else if targetReturn.Some? then
      Problem(MinimizeVariance, EqualWeights(n), bounds, [WeightsSumToOne, ReturnEquals(targetReturn.value)], SolverTolerance)
    else
      Problem(MinimizeVariance, EqualWeights(n), bounds, [WeightsSumToOne], SolverTolerance)
  }

  /** The starting point is feasible for the bounds and for the sum-to-one constraint. */
  lemma StartPointFeasible(t: AssetTable, nm: Numerics, targetRisk: Option<real>, targetReturn: Option<real>)
    requires t.Valid()
    ensures var p := BuildProblem(t.N(), targetRisk, targetReturn);
            |p.x0| == t.N() && WithinBounds(p, p.x0) && Meets(t, nm, WeightsSumToOne, p.x0)
  {
    var p := BuildProblem(t.N(), targetRisk, targetReturn);
    EqualWeightsSumToOne(t.N());
    var n := t.N() as real;
    assert 1.0 / n <= 1.0;
  }

  datatype OptimizeResult = OptimizeResult(weights: seq<real>, metrics: Metrics, success: bool, message: string)

  /**
   * `optimize_portfolio`. `None` stands for an exception escaping the call:
   * one raised inside the solver, or numpy's shape error when the returned
   * vector does not have one weight per fund. Non-convergence is not an
   * exception: the vector is kept, its metrics are recomputed, and the success
   * flag and message are passed through.
   */
  function OptimizePortfolio(t: AssetTable, nm: Numerics, targetRisk: Option<real>, targetReturn: Option<real>)
    : (r: Option<OptimizeResult>)
    requires t.Valid()
    ensures var out := nm.minimize(BuildProblem(t.N(), targetRisk, targetReturn));
            && (r.Some? <==> out.Finished? && |out.x| == t.N())
            && (r.Some? ==> r.value.weights == out.x
                            && r.value.metrics == PortfolioMetrics(t, nm, out.x)
                            && r.value.success == out.success
                            && r.value.message == out.message)
  {
    var out := nm.minimize(BuildProblem(t.N(), targetRisk, targetReturn));
    if out.Raised? || |out.x| != t.N() then None
    else Some(OptimizeResult(out.x, PortfolioMetrics(t, nm, out.x), out.success, out.message))
  }

  // ---------------------------------------------------------------------
  // Efficient frontier
  // ---------------------------------------------------------------------

  /** `np.linspace(a, b, num)`: `num` evenly spaced values from `a` to `b` inclusive. */
  function Linspace(a: real, b: real, num: nat): (g: seq<real>)
    ensures |g| == num
  {
    if num == 1 then [a]
    else seq(num, i requires 0 <= i < num => a + (i as real) * ((b - a) / ((num - 1) as real)))
  }

  /** The grid starts at `a`, ends at `b`, has a constant step, and runs in the direction from `a` to `b`. */
  lemma LinspaceShape(a: real, b: real, num: nat)
    ensures num >= 1 ==> Linspace(a, b, num)[0] == a
    ensures num >= 2 ==> Linspace(a, b, num)[num - 1] == b
    ensures num >= 2 ==> forall i :: 0 <= i < num - 1 ==>
              Linspace(a, b, num)[i + 1] - Linspace(a, b, num)[i] == (b - a) / ((num - 1) as real)
    ensures a <= b ==> forall i, j :: 0 <= i <= j < num ==> Linspace(a, b, num)[i] <= Linspace(a, b, num)[j]
  {
    if num >= 2 {
      LinspaceLast(a, b, num);
      LinspaceStep(a, b, num);
      if a <= b {
        LinspaceRising(a, b, num);
      }
    }
  }

  lemma LinspaceLast(a: real, b: real, num: nat)
    requires num >= 2
    ensures Linspace(a, b, num)[num - 1] == b
  {
    var n := (num - 1) as real;
    DivTimes(b - a, n);
    assert Linspace(a, b, num)[num - 1] == a + n * ((b - a) / n);
  }

  lemma LinspaceStep(a: real, b: real, num: nat)
    requires num >= 2
    ensures forall i :: 0 <= i < num - 1 ==>
              Linspace(a, b, num)[i + 1] - Linspace(a, b, num)[i] == (b - a) / ((num - 1) as real)
  {
    var g := Linspace(a, b, num);
    var step := (b - a) / ((num - 1) as real);
    forall i | 0 <= i < num - 1
      ensures g[i + 1] - g[i] == step
    {
      TimesSucc(i as real, step);
    }
  }

  lemma LinspaceRising(a: real, b: real, num: nat)
    requires num >= 2 && a <= b
    ensures forall i, j :: 0 <= i <= j < num ==> Linspace(a, b, num)[i] <= Linspace(a, b, num)[j]
  {
    var g := Linspace(a, b, num);
    var step := (b - a) / ((num - 1) as real);
    assert step >= 0.0;
    forall i, j | 0 <= i <= j < num
      ensures g[i] <= g[j]
    {
      TimesMonotone(i as real, j as real, step);
    }
  }

  /** Helper: dividing by a positive number and multiplying back is the identity. */
  lemma DivTimes(x: real, n: real)
    requires n > 0.0
    ensures n * (x / n) == x
  {
  }

  /** Helper: one more grid step adds the step once more. */
  lemma TimesSucc(k: real, step: real)
    ensures (k + 1.0) * step == k * step + step
  {
  }

  /** Helper: a later grid index never gives a smaller offset. */
  lemma TimesMonotone(i: real, j: real, step: real)
    requires i <= j && step >= 0.0
    ensures i * step <= j * step
  {
    assert j * step - i * step == (j - i) * step;
  }

  /** One frontier entry with its weights as a value. */
  datatype FrontierValue = FrontierValue(targetReturn: real, weights: seq<real>, metrics: Metrics)

  /**
   * One frontier entry as the code holds it: the weights are the solver's array,
   * which `map_risk_to_portfolio` later changes in place.
   */
  datatype FrontierPoint = FrontierPoint(targetReturn: real, weights: array<real>, metrics: Metrics)

  function ValueOf(p: FrontierPoint): FrontierValue
    reads p.weights
  {
    FrontierValue(p.targetReturn, p.weights[..], p.metrics)
  }

  function Arrays(f: seq<FrontierPoint>): set<array<real>>
  {
    set i | 0 <= i < |f| :: f[i].weights
  }

  function Values(f: seq<FrontierPoint>): (v: seq<FrontierValue>)
    reads Arrays(f)
    ensures |v| == |f|
    ensures forall i :: 0 <= i < |f| ==> v[i] == ValueOf(f[i])
  {
    seq(|f|, i requires 0 <= i < |f| reads Arrays(f) => ValueOf(f[i]))
  }

  /** No two frontier entries share a weights array. */
  predicate Unaliased(f: seq<FrontierPoint>)
  {
    forall i, j :: 0 <= i < j < |f| ==> f[i].weights != f[j].weights
  }

  /** The point kept for one grid target, if its solve returned and succeeded. */
  function GridPoint(t: AssetTable, nm: Numerics, target: real): (p: Option<FrontierValue>)
    requires t.Valid()
  {
    match OptimizePortfolio(t, nm, None, Some(target))
    case None => None
    case Some(res) => if res.success then Some(FrontierValue(target, res.weights, res.metrics)) else None
  }

  /** The points kept over a grid, in grid order. */
  function FrontierOver(t: AssetTable, nm: Numerics, grid: seq<real>): seq<FrontierValue>
    requires t.Valid()
  {
    if grid == [] then []
    else
      var kept := FrontierOver(t, nm, grid[..|grid| - 1]);
      match GridPoint(t, nm, grid[|grid| - 1])
      case None => kept
      case Some(p) => kept + [p]
  }

  /**
   * `calculate_efficient_frontier`: solve for minimum variance (its success flag
   * is not looked at), then target `num` evenly spaced returns from that
   * portfolio's return to 0.9 × the best single-fund return. `None` stands for
   * an exception escaping: the first solve raising, or `np.linspace` rejecting a
   * negative count.
   */
  function EfficientFrontier(t: AssetTable, nm: Numerics, num: int): Option<seq<FrontierValue>>
    requires t.Valid()
  {
    match OptimizePortfolio(t, nm, None, None)
    case None => None
    case Some(minVar) =>
      if num < 0 then None
      else Some(FrontierOver(t, nm, FrontierGrid(t, minVar, num)))
  }

  function FrontierGrid(t: AssetTable, minVar: OptimizeResult, num: nat): seq<real>
    requires t.Valid()
  {
    Linspace(minVar.metrics.expectedReturn, FrontierTopFraction * MaxOf(t.expectedReturns), num)
  }

  lemma {:induction false} FrontierOverShape(t: AssetTable, nm: Numerics, grid: seq<real>)
    requires t.Valid()
    ensures |FrontierOver(t, nm, grid)| <= |grid|
    ensures forall k :: 0 <= k < |FrontierOver(t, nm, grid)| ==>
              exists j :: 0 <= j < |grid| && GridPoint(t, nm, grid[j]) == Some(FrontierOver(t, nm, grid)[k])
  {
    if grid != [] {
      var init := grid[..|grid| - 1];
      FrontierOverShape(t, nm, init);
      var f := FrontierOver(t, nm, grid);
      forall k | 0 <= k < |f|
        ensures exists j :: 0 <= j < |grid| && GridPoint(t, nm, grid[j]) == Some(f[k])
      {
        if k < |FrontierOver(t, nm, init)| {
          var j :| 0 <= j < |init| && GridPoint(t, nm, init[j]) == Some(FrontierOver(t, nm, init)[k]);
          assert grid[j] == init[j];
        } else {
          assert GridPoint(t, nm, grid[|grid| - 1]) == Some(f[k]);
        }
      }
    }
  }

  /**
   * Only successful solves are kept: every frontier entry was requested by the
   * grid, reports success, has one weight per fund and carries the metrics of
   * its own weights. There are never more entries than grid points.
   */
  lemma FrontierKeepsOnlySuccesses(t: AssetTable, nm: Numerics, grid: seq<real>)
    requires t.Valid()
    ensures |FrontierOver(t, nm, grid)| <= |grid|
    ensures forall p :: p in FrontierOver(t, nm, grid) ==>
              && p.targetReturn in grid
              && |p.weights| == t.N()
              && p.metrics == PortfolioMetrics(t, nm, p.weights)
              && OptimizePortfolio(t, nm, None, Some(p.targetReturn)).Some?
              && OptimizePortfolio(t, nm, None, Some(p.targetReturn)).value.success
  {
    FrontierOverShape(t, nm, grid);
    var f := FrontierOver(t, nm, grid);
    forall p | p in f
      ensures p.targetReturn in grid && |p.weights| == t.N() && p.metrics == PortfolioMetrics(t, nm, p.weights)
      ensures OptimizePortfolio(t, nm, None, Some(p.targetReturn)).Some?
      ensures OptimizePortfolio(t, nm, None, Some(p.targetReturn)).value.success
    {
      var k :| 0 <= k < |f| && f[k] == p;
      var j :| 0 <= j < |grid| && GridPoint(t, nm, grid[j]) == Some(f[k]);
    }
  }

  /** When every solve succeeds nothing is skipped: one entry per grid value, in grid order. */
  lemma {:induction false} FrontierCompleteWhenAllSucceed(t: AssetTable, nm: Numerics, grid: seq<real>)
    requires t.Valid()
    requires forall j :: 0 <= j < |grid| ==> GridPoint(t, nm, grid[j]).Some?
    ensures |FrontierOver(t, nm, grid)| == |grid|
    ensures forall k :: 0 <= k < |grid| ==> FrontierOver(t, nm, grid)[k].targetReturn == grid[k]
  {
    if grid != [] {
      var init := grid[..|grid| - 1];
      FrontierCompleteWhenAllSucceed(t, nm, init);
    }
  }

  /** Entries stay in grid order: an ascending grid gives ascending target returns. */
  lemma {:induction false} FrontierOrdered(t: AssetTable, nm: Numerics, grid: seq<real>)
    requires t.Valid()
    requires forall i, j :: 0 <= i <= j < |grid| ==> grid[i] <= grid[j]
    ensures forall i, j :: 0 <= i <= j < |FrontierOver(t, nm, grid)| ==>
              FrontierOver(t, nm, grid)[i].targetReturn <= FrontierOver(t, nm, grid)[j].targetReturn
  {
    if grid != [] {
      var init := grid[..|grid| - 1];
      FrontierOrdered(t, nm, init);
      FrontierKeepsOnlySuccesses(t, nm, init);
      var before := FrontierOver(t, nm, init);
      forall p | p in before
        ensures p.targetReturn <= grid[|grid| - 1]
      {
        var j :| 0 <= j < |init| && init[j] == p.targetReturn;
      }
    }
  }

  /**
   * The frontier has at most `num` entries, and its grid runs from the
   * minimum-variance portfolio's return to 0.9 × the best fund return.
   */
  lemma EfficientFrontierShape(t: AssetTable, nm: Numerics, num: int)
    requires t.Valid()
    ensures EfficientFrontier(t, nm, num).Some? ==> |EfficientFrontier(t, nm, num).value| <= num
    ensures EfficientFrontier(t, nm, num).Some? ==>
              var minVar := OptimizePortfolio(t, nm, None, None).value;
              var grid := FrontierGrid(t, minVar, num);
              && (num >= 1 ==> grid[0] == minVar.metrics.expectedReturn)
              && (num >= 2 ==> grid[num - 1] == FrontierTopFraction * MaxOf(t.expectedReturns))
  {
    if EfficientFrontier(t, nm, num).Some? {
      var minVar := OptimizePortfolio(t, nm, None, None).value;
      var grid := FrontierGrid(t, minVar, num);
      FrontierKeepsOnlySuccesses(t, nm, grid);
      LinspaceShape(minVar.metrics.expectedReturn, FrontierTopFraction * MaxOf(t.expectedReturns), num);
    }
  }

  /** The frontier builder: one solve per grid value, each kept result stored in a fresh array. */
  method CalculateEfficientFrontier(t: AssetTable, nm: Numerics, num: int) returns (r: Option<seq<FrontierPoint>>)
    requires t.Valid()
    ensures r.Some? <==> EfficientFrontier(t, nm, num).Some?
    ensures r.Some? ==> && (forall i :: 0 <= i < |r.value| ==> fresh(r.value[i].weights))
                        && Unaliased(r.value)
                        && Values(r.value) == EfficientFrontier(t, nm, num).value
  {
    var minVar := OptimizePortfolio(t, nm, None, None);
    if minVar.None? || num < 0 {
      return None;
    }
    var grid := FrontierGrid(t, minVar.value, num);
    var points: seq<FrontierPoint> := [];
    var i := 0;
    while i < |grid|
      invariant 0 <= i <= |grid|
      invariant forall k :: 0 <= k < |points| ==> fresh(points[k].weights)
      invariant Unaliased(points)
      invariant Values(points) == FrontierOver(t, nm, grid[..i])
    {
      var next := AddGridPoint(t, nm, points, grid[i]);
      FrontierOverStep(t, nm, grid, i);
      assert Values(next) == FrontierOver(t, nm, grid[..i + 1]);
      points := next;
      i := i + 1;
    }
    assert grid[..|grid|] == grid;
    r := Some(points);
  }

  lemma FrontierOverStep(t: AssetTable, nm: Numerics, grid: seq<real>, i: nat)
    requires t.Valid() && i < |grid|
    ensures FrontierOver(t, nm, grid[..i + 1])
         == FrontierOver(t, nm, grid[..i]) + (match GridPoint(t, nm, grid[i]) case None => [] case Some(p) => [p])
  {
    assert grid[..i + 1][..i] == grid[..i];
  }

  /** One grid target: solve, and keep the point, in a fresh array, when the solve succeeded. */
  method AddGridPoint(t: AssetTable, nm: Numerics, points: seq<FrontierPoint>, target: real)
    returns (extended: seq<FrontierPoint>)
    requires t.Valid()
    requires Unaliased(points)
    ensures |extended| >= |points| && forall k :: 0 <= k < |points| ==> extended[k] == points[k]
    ensures forall k :: |points| <= k < |extended| ==> fresh(extended[k].weights)
    ensures Unaliased(extended)
    ensures Values(extended)
         == Values(points) + (match GridPoint(t, nm, target) case None => [] case Some(p) => [p])
  {
    extended := points;
    var res := OptimizePortfolio(t, nm, None, Some(target));
    if res.Some? && res.value.success {
      var w := res.value.weights;
      var a := new real[|w|](j requires 0 <= j < |w| => w[j]);
      assert a[..] == w;
      extended := points + [FrontierPoint(target, a, res.value.metrics)];
      assert extended[..|points|] == points;
    }
  }

  // ---------------------------------------------------------------------
  // Risk score -> frontier point
  // ---------------------------------------------------------------------

  /** `int((risk_score - 1) / 9 * (len - 1))`, before Python indexing. */
  function PortfolioIndex(score: real, len: nat): int
  {
    PyText.Trunc((score - 1.0) / 9.0 * ((len as real) - 1.0))
  }

  /** Python list indexing: negative indices count from the end, others raise IndexError. */
  function PyIndex(i: int, len: nat): (k: Option<nat>)
    ensures k.Some? ==> k.value < len
  {
    if 0 <= i < len then Some(i) else if -(len as int) <= i < 0 then Some(len + i) else None
  }

  /** The frontier entry chosen for a score, or `None` for IndexError. */
  function SelectedIndex(score: real, len: nat): (k: Option<nat>)
    requires len > 0
    ensures k.Some? ==> k.value < len
  {
    PyIndex(PortfolioIndex(score, len), len)
  }

  /** For scores in [1, 10] the index is in range and needs no wrap-around. */
  lemma IndexInRange(score: real, len: nat)
    requires 1.0 <= score <= 10.0 && len > 0
    ensures 0 <= PortfolioIndex(score, len) < len
    ensures SelectedIndex(score, len) == Some(PortfolioIndex(score, len))
  {
    var x := (score - 1.0) / 9.0;
    var m := (len as real) - 1.0;
    assert 0.0 <= x <= 1.0 && 0.0 <= m;
    FractionBound(x, m);
    TruncBelow(x * m, len);
  }

  /** Helper: truncating a value in [0, len - 1] gives an index in range. */
  lemma TruncBelow(v: real, len: nat)
    requires 0.0 <= v <= (len as real) - 1.0
    ensures 0 <= PyText.Trunc(v) < len
  {
  }

  /** Helper: a fraction in [0, 1] of a non-negative number lies between 0 and that number. */
  lemma FractionBound(x: real, m: real)
    requires 0.0 <= x <= 1.0 && 0.0 <= m
    ensures 0.0 <= x * m <= m
  {
    assert m - x * m == (1.0 - x) * m;
  }

  /** Score 1 selects the first (lowest-return) entry and score 10 the last. */
  lemma IndexEndpoints(len: nat)
    requires len > 0
    ensures SelectedIndex(1.0, len) == Some(0)
    ensures SelectedIndex(10.0, len) == Some(len - 1)
  {
    assert (10.0 - 1.0) / 9.0 * ((len as real) - 1.0) == ((len - 1) as real);
  }

  /** A higher score never selects a lower entry. */
  lemma IndexMonotone(a: real, b: real, len: nat)
    requires 1.0 <= a <= b <= 10.0 && len > 0
    ensures PortfolioIndex(a, len) <= PortfolioIndex(b, len)
  {
    var m := (len as real) - 1.0;
    var x, y := (a - 1.0) / 9.0, (b - 1.0) / 9.0;
    assert 0.0 <= x <= y && 0.0 <= m;
    assert x * m <= y * m;
    assert 0.0 <= x * m;
    FloorMonotone(x * m, y * m);
  }

  lemma FloorMonotone(x: real, y: real)
    requires x <= y
    ensures x.Floor <= y.Floor
  {
    assert (x.Floor as real) <= x;
    assert y < (y.Floor as real) + 1.0;
  }

  /**
   * Scores are not validated: on the default 100-point frontier a score of 0
   * gives index -11, which Python reads as entry 89, near the high-return end.
   */
  lemma ScoreZeroWrapsAround()
    ensures PortfolioIndex(0.0, DefaultNumPortfolios) == -11
    ensures SelectedIndex(0.0, DefaultNumPortfolios) == Some(89)
  {
    assert (0.0 - 1.0) / 9.0 * ((DefaultNumPortfolios as real) - 1.0) == -11.0;
  }

  /** `weights[weights < 0.001] = 0`. */
  function ZeroSmall(w: seq<real>): (z: seq<real>)
    ensures |z| == |w|
    ensures forall i :: 0 <= i < |w| ==> z[i] == (if w[i] < SmallWeight then 0.0 else w[i])
  {
    seq(|w|, i requires 0 <= i < |w| => if w[i] < SmallWeight then 0.0 else w[i])
  }

  /** `weights / s`. */
  function Scale(w: seq<real>, s: real): (v: seq<real>)
    requires s != 0.0
    ensures |v| == |w| && forall i :: 0 <= i < |w| ==> v[i] == w[i] / s
  {
    seq(|w|, i requires 0 <= i < |w| => w[i] / s)
  }

  lemma {:induction false} SumScale(w: seq<real>, s: real)
    requires s != 0.0
    ensures Sum(Scale(w, s)) == Sum(w) / s
  {
    if w != [] {
      assert Scale(w, s)[1..] == Scale(w[1..], s);
      SumScale(w[1..], s);
      DivAdd(w[0], Sum(w[1..]), s);
    }
  }

  /** Helper: division by the weight sum distributes over addition. */
  lemma DivAdd(a: real, b: real, s: real)
    requires s != 0.0
    ensures (a + b) / s == a / s + b / s
  {
  }

  /** Helper: the weight sum divided by itself is 1. */
  lemma DivSelf(s: real)
    requires s != 0.0
    ensures s / s == 1.0
  {
  }

  /** Helper: a nonzero weight stays nonzero after normalisation. */
  lemma DivNonzero(a: real, s: real)
    requires a != 0.0 && s != 0.0
    ensures a / s != 0.0
  {
  }

  datatype Portfolio = Portfolio(weights: seq<real>, metrics: Metrics, riskScoreUsed: real)

  /** `NonFiniteWeights`: the zeroed weights sum to 0, and numpy's division yields NaN/inf. */
  datatype MapError = IndexError | NonFiniteWeights

  /** The equal-weight fallback used when the frontier is empty. */
  function Fallback(t: AssetTable, nm: Numerics, score: real): Portfolio
    requires t.Valid()
  {
    var w := EqualWeights(t.N());
    Portfolio(w, PortfolioMetrics(t, nm, w), score)
  }

  /**
   * `map_risk_to_portfolio` on frontier values. The metrics of the selected
   * entry are copied, not recomputed from the renormalised weights.
   */
  function MapRisk(t: AssetTable, nm: Numerics, score: real, frontier: seq<FrontierValue>)
    : Result<Portfolio, MapError>
    requires t.Valid()
  {
    if frontier == [] then Ok(Fallback(t, nm, score))
    else match SelectedIndex(score, |frontier|)
      case None => Err(IndexError)
      case Some(k) =>
        var z := ZeroSmall(frontier[k].weights);
        var s := Sum(z);
        if s == 0.0 then Err(NonFiniteWeights)
        else Ok(Portfolio(Scale(z, s), frontier[k].metrics, score))
  }

  /** The empty frontier yields 1/N weights that sum to one, their own metrics, and the score echoed. */
  lemma EmptyFrontierFallback(t: AssetTable, nm: Numerics, score: real)
    requires t.Valid()
    ensures MapRisk(t, nm, score, []).Ok?
    ensures var p := MapRisk(t, nm, score, []).value;
            && p.weights == EqualWeights(t.N())
            && Sum(p.weights) == 1.0
            && p.metrics == PortfolioMetrics(t, nm, p.weights)
            && p.metrics.expectedReturn == Sum(t.expectedReturns) / (t.N() as real)
            && p.riskScoreUsed == score
  {
    EqualWeightsSumToOne(t.N());
    EqualWeightsReturn(t, nm);
  }

  /**
   * Post-processing of the selected entry: weights under 0.001 become 0, the
   * others are divided by the new sum so that the result sums to one, and the
   * metrics and score are the selected entry's and the caller's.
   */
  lemma MappedWeightsNormalised(t: AssetTable, nm: Numerics, score: real, frontier: seq<FrontierValue>)
    requires t.Valid() && frontier != []
    requires MapRisk(t, nm, score, frontier).Ok?
    ensures SelectedIndex(score, |frontier|).Some?
    ensures var k := SelectedIndex(score, |frontier|).value;
            var w := frontier[k].weights;
            var p := MapRisk(t, nm, score, frontier).value;
            && Sum(p.weights) == 1.0
            && |p.weights| == |w|
            && (forall i :: 0 <= i < |w| ==> (w[i] < SmallWeight <==> p.weights[i] == 0.0))
            && (forall i :: 0 <= i < |w| && w[i] >= SmallWeight ==> p.weights[i] == w[i] / Sum(ZeroSmall(w)))
            && p.metrics == frontier[k].metrics
            && p.riskScoreUsed == score
  {
    var k := SelectedIndex(score, |frontier|).value;
    var w := frontier[k].weights;
    var z := ZeroSmall(w);
    var s := Sum(z);
    assert MapRisk(t, nm, score, frontier) == Ok(Portfolio(Scale(z, s), frontier[k].metrics, score));
    forall i | 0 <= i < |w| ensures w[i] < SmallWeight <==> Scale(z, s)[i] == 0.0 {
      if w[i] >= SmallWeight {
        DivNonzero(w[i], s);
      }
    }
    SumScale(z, s);
    DivSelf(s);
  }

  /** A score in [1, 10] never raises IndexError; only an all-noise entry fails. */
  lemma MapRiskTotalOnValidScores(t: AssetTable, nm: Numerics, score: real, frontier: seq<FrontierValue>)
    requires t.Valid() && 1.0 <= score <= 10.0
    ensures MapRisk(t, nm, score, frontier).Err? ==>
              && MapRisk(t, nm, score, frontier).error == NonFiniteWeights
              && frontier != []
              && SelectedIndex(score, |frontier|).Some?
              && Sum(ZeroSmall(frontier[SelectedIndex(score, |frontier|).value].weights)) == 0.0
  {
    if frontier != [] {
      IndexInRange(score, |frontier|);
    }
  }

  /**
   * `map_risk_to_portfolio` on the frontier the builder returned: the selected
   * entry's own weights array is zeroed in place (a frontier entry sharing that
   * array sees the change too); every other array is left alone.
   */
  method MapRiskToPortfolio(t: AssetTable, nm: Numerics, score: real, frontier: seq<FrontierPoint>)
    returns (r: Result<Portfolio, MapError>)
    requires t.Valid()
    modifies Arrays(frontier)
    ensures r == MapRisk(t, nm, score, old(Values(frontier)))
    ensures frontier != [] && SelectedIndex(score, |frontier|).Some? ==>
              var a := frontier[SelectedIndex(score, |frontier|).value].weights;
              && a[..] == ZeroSmall(old(a[..]))
              && forall i :: 0 <= i < |frontier| && frontier[i].weights != a ==>
                   frontier[i].weights[..] == old(frontier[i].weights[..])
    ensures frontier == [] || SelectedIndex(score, |frontier|).None? ==>
              forall i :: 0 <= i < |frontier| ==> frontier[i].weights[..] == old(frontier[i].weights[..])
  {
    if frontier == [] {
      return Ok(Fallback(t, nm, score));
    }
    var sel := SelectedIndex(score, |frontier|);
    if sel.None? {
      return Err(IndexError);
    }
    ghost var before := Values(frontier);
    var a := frontier[sel.value].weights;
    forall i | 0 <= i < a.Length {
      a[i] := if a[i] < SmallWeight then 0.0 else a[i];
    }
    assert a[..] == ZeroSmall(before[sel.value].weights);
    var z := a[..];
    var s := Sum(z);
    if s == 0.0 {
      r := Err(NonFiniteWeights);
    } else {
      r := Ok(Portfolio(Scale(z, s), frontier[sel.value].metrics, score));
    }
  }

  // ---------------------------------------------------------------------
  // Allocation plan
  // ---------------------------------------------------------------------

  datatype PlanEntry = PlanEntry(fundName: string, weight: real, weightPercentage: real, investmentAmount: real)

  datatype FormattedResult = FormattedResult(
    planList: seq<PlanEntry>,
    expectedReturn: real,
    expectedVolatility: real,
    maxDrawdownEstimate: real,
    riskScoreUsed: real)

  function Min(a: nat, b: nat): nat { if a <= b then a else b }

  function EntryFor(name: string, weight: real, amount: real): PlanEntry
  {
    PlanEntry(name, weight, weight * 100.0, weight * amount)
  }

  /** The entries the loop appends over the first `n` (name, weight) pairs of `zip`. */
  function EntriesUpTo(names: seq<string>, weights: seq<real>, amount: real, n: nat): seq<PlanEntry>
    requires n <= |names| && n <= |weights|
  {
    if n == 0 then []
    else
      EntriesUpTo(names, weights, amount, n - 1)
      + (if weights[n - 1] > SmallWeight then [EntryFor(names[n - 1], weights[n - 1], amount)] else [])
  }

  /** Plan entries before sorting: funds above 0.1%, in fund order. */
  function PlanEntries(names: seq<string>, weights: seq<real>, amount: real): seq<PlanEntry>
  {
    EntriesUpTo(names, weights, amount, Min(|names|, |weights|))
  }

  lemma {:induction false} EntriesUpToSpec(names: seq<string>, weights: seq<real>, amount: real, n: nat)
    requires n <= |names| && n <= |weights|
    ensures forall e :: e in EntriesUpTo(names, weights, amount, n) ==>
              exists i :: 0 <= i < n && weights[i] > SmallWeight && e == EntryFor(names[i], weights[i], amount)
    ensures forall i :: 0 <= i < n && weights[i] > SmallWeight ==>
              EntryFor(names[i], weights[i], amount) in EntriesUpTo(names, weights, amount, n)
  {
    if n > 0 {
      EntriesUpToSpec(names, weights, amount, n - 1);
    }
  }

  /**
   * A plan entry exists exactly for the funds whose weight exceeds 0.1%, with
   * amount = weight × investment and percentage = weight × 100.
   */
  lemma PlanEntriesExactly(names: seq<string>, weights: seq<real>, amount: real)
    ensures forall e :: e in PlanEntries(names, weights, amount) ==>
              && e.weight > SmallWeight
              && e.weightPercentage == e.weight * 100.0
              && e.investmentAmount == e.weight * amount
              && exists i :: 0 <= i < |names| && i < |weights| && e.fundName == names[i] && e.weight == weights[i]
    ensures forall i :: 0 <= i < |names| && i < |weights| && weights[i] > SmallWeight ==>
              EntryFor(names[i], weights[i], amount) in PlanEntries(names, weights, amount)
  {
    EntriesUpToSpec(names, weights, amount, Min(|names|, |weights|));
  }

  /** Insert `e` before the first entry of strictly smaller weight (after no equal one): stable. */
  function Insert(e: PlanEntry, s: seq<PlanEntry>): seq<PlanEntry>
  {
    if s == [] || e.weight >= s[0].weight then [e] + s else [s[0]] + Insert(e, s[1..])
  }

  /** `list.sort(key=weight, reverse=True)`: a stable sort, descending by weight. */
  function SortByWeightDesc(s: seq<PlanEntry>): seq<PlanEntry>
  {
    if s == [] then [] else Insert(s[0], SortByWeightDesc(s[1..]))
  }

  predicate SortedDesc(s: seq<PlanEntry>)
  {
    forall i, j :: 0 <= i < j < |s| ==> s[i].weight >= s[j].weight
  }

  /** The entries of `s` with weight exactly `w`, in order. */
  function WithWeight(s: seq<PlanEntry>, w: real): seq<PlanEntry>
  {
    if s == [] then [] else (if s[0].weight == w then [s[0]] else []) + WithWeight(s[1..], w)
  }

  lemma InsertKeeps(e: PlanEntry, s: seq<PlanEntry>)
    requires SortedDesc(s)
    ensures SortedDesc(Insert(e, s))
    ensures multiset(Insert(e, s)) == multiset(s) + multiset{e}
    ensures |Insert(e, s)| == |s| + 1
  {
    InsertPermutes(e, s);
    InsertSorted(e, s);
  }

  lemma {:induction false} InsertPermutes(e: PlanEntry, s: seq<PlanEntry>)
    ensures multiset(Insert(e, s)) == multiset(s) + multiset{e}
    ensures |Insert(e, s)| == |s| + 1
  {
    if s != [] && e.weight < s[0].weight {
      InsertPermutes(e, s[1..]);
      assert s == [s[0]] + s[1..];
    }
  }

  lemma {:induction false} InsertSorted(e: PlanEntry, s: seq<PlanEntry>)
    requires SortedDesc(s)
    ensures SortedDesc(Insert(e, s))
  {
    if s != [] && e.weight < s[0].weight {
      InsertSorted(e, s[1..]);
      InsertPermutes(e, s[1..]);
      var rest := Insert(e, s[1..]);
      forall x | x in rest ensures s[0].weight >= x.weight {
        assert x in multiset(rest);
        if x != e {
          assert x in multiset(s[1..]);
          var j :| 0 <= j < |s[1..]| && s[1..][j] == x;
          assert s[j + 1] == x;
        }
      }
      ConsSorted(s[0], rest);
    }
  }

  lemma ConsSorted(h: PlanEntry, r: seq<PlanEntry>)
    requires SortedDesc(r)
    requires forall x | x in r :: h.weight >= x.weight
    ensures SortedDesc([h] + r)
  {
    var t := [h] + r;
    forall i, j | 0 <= i < j < |t| ensures t[i].weight >= t[j].weight {
      if i > 0 {
        assert t[i] == r[i - 1] && t[j] == r[j - 1];
      } else {
        assert t[j] == r[j - 1] && r[j - 1] in r;
      }
    }
  }

  lemma {:induction false} InsertStable(e: PlanEntry, s: seq<PlanEntry>, w: real)
    requires SortedDesc(s)
    ensures WithWeight(Insert(e, s), w) == (if e.weight == w then [e] else []) + WithWeight(s, w)
  {
    if s != [] && e.weight < s[0].weight {
      InsertStable(e, s[1..], w);
      assert Insert(e, s)[1..] == Insert(e, s[1..]);
      if e.weight == w {
        assert s[0].weight != w;
      }
    } else {
      assert Insert(e, s)[1..] == s;
    }
  }

  /**
   * The sort's result is ordered by descending weight, is a permutation of its
   * input, and keeps entries of equal weight in their original order.
   */
  lemma {:induction false} SortByWeightDescCorrect(s: seq<PlanEntry>)
    ensures SortedDesc(SortByWeightDesc(s))
    ensures multiset(SortByWeightDesc(s)) == multiset(s)
    ensures forall w :: WithWeight(SortByWeightDesc(s), w) == WithWeight(s, w)
  {
    if s != [] {
      SortByWeightDescCorrect(s[1..]);
      InsertKeeps(s[0], SortByWeightDesc(s[1..]));
      assert s == [s[0]] + s[1..];
      forall w ensures WithWeight(SortByWeightDesc(s), w) == WithWeight(s, w) {
        InsertStable(s[0], SortByWeightDesc(s[1..]), w);
      }
    }
  }

  /**
   * `format_portfolio_result`: one entry per fund above 0.1%, sorted by
   * descending weight, with the portfolio's metrics and score carried over.
   */
  method FormatPortfolioResult(names: seq<string>, p: Portfolio, amount: real) returns (r: FormattedResult)
    ensures r.planList == SortByWeightDesc(PlanEntries(names, p.weights, amount))
    ensures r.expectedReturn == p.metrics.expectedReturn
    ensures r.expectedVolatility == p.metrics.volatility
    ensures r.maxDrawdownEstimate == p.metrics.maxDrawdown
    ensures r.riskScoreUsed == p.riskScoreUsed
  {
    var weights := p.weights;
    var n := Min(|names|, |weights|);
    var plan: seq<PlanEntry> := [];
    var i := 0;
    while i < n
      invariant 0 <= i <= n
      invariant plan == EntriesUpTo(names, weights, amount, i)
    {
      if weights[i] > SmallWeight {
        plan := plan + [EntryFor(names[i], weights[i], amount)];
      }
      i := i + 1;
    }
    plan := SortByWeightDesc(plan);
    r := FormattedResult(plan, p.metrics.expectedReturn, p.metrics.volatility, p.metrics.maxDrawdown, p.riskScoreUsed);
  }
}
