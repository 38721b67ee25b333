/** The rolling-window backtest engine: the rebalancing schedule, the five
    strategies' target weights, the daily turnover / cost / return bookkeeping
    and the per-strategy metrics. `BacktestRun` is the specification of one run;
    `RunBacktest` is the engine's loop over the days, proved to compute it. */
module Backtest {
  import opened Wrappers
  import opened Vectors
  import opened Numerics
  import opened Allocations
  import opened Covariance
  import opened Metrics

  // ================================================================
  // Strategies and configuration.
  // ================================================================

  datatype Strategy = EqualWeightRule | MinVarianceRule | MeanVarianceRule | RiskParityRule | VolTargetRule

  /** The column name each strategy is reported under. */
  function StrategyName(s: Strategy): string
  {
    match s
    case EqualWeightRule => "equal_weight"
    case MinVarianceRule => "min_variance"
    case MeanVarianceRule => "mean_variance"
    case RiskParityRule => "risk_parity"
    case VolTargetRule => "vol_target"
  }

  /** The strategies in the order the engine records and reports them. */
  const Strategies: seq<Strategy> := [EqualWeightRule, MinVarianceRule, MeanVarianceRule, RiskParityRule, VolTargetRule]

  const NumStrategies: nat := 5

  /** The column a strategy is recorded in: its position in `Strategies`. */
  function Index(s: Strategy): (t: nat)
    ensures t < NumStrategies && |Strategies| == NumStrategies && Strategies[t] == s
  {
    match s
    case EqualWeightRule => 0
    case MinVarianceRule => 1
    case MeanVarianceRule => 2
    case RiskParityRule => 3
    case VolTargetRule => 4
  }

  /** Every column holds a different strategy under its own name, so `Index` and
      `Strategies` are inverse to each other. */
  lemma StrategiesListed()
    ensures |Strategies| == NumStrategies
    ensures forall t :: 0 <= t < NumStrategies ==> Index(Strategies[t]) == t
    ensures forall t, u :: 0 <= t < u < NumStrategies ==> StrategyName(Strategies[t]) != StrategyName(Strategies[u])
  {
    forall t | 0 <= t < NumStrategies ensures Index(Strategies[t]) == t {
      if t == 0 {} else if t == 1 {} else if t == 2 {} else if t == 3 {} else {}
    }
  }

  /** Trading days between rebalances, by frequency name. */
  const RebFreq: map<string, nat> := map["weekly" := 5, "monthly" := 21, "quarterly" := 63]

  /** The step `should_rebalance` uses: an unknown frequency name counts as monthly. */
  function RebalanceStep(freq: string): (step: nat)
    ensures 0 < step
  {
    if freq in RebFreq then RebFreq[freq] else RebFreq["monthly"]
  }

  /** The named frequencies step by their table entry, every other name by 21 days. */
  lemma RebalanceStepLookup(freq: string)
    ensures freq in RebFreq ==> RebalanceStep(freq) == RebFreq[freq]
    ensures freq !in RebFreq ==> RebalanceStep(freq) == 21
    ensures RebalanceStep(freq) in {5, 21, 63}
  {
  }

  /** `should_rebalance(i, freq, last_reb)`: the step of the named frequency,
      or the monthly step for a name the table lacks, has elapsed. */
  function ShouldRebalance(i: int, freq: string, lastReb: int): (r: bool)
    ensures freq in RebFreq ==> (r <==> lastReb + RebFreq[freq] <= i)
    ensures freq !in RebFreq ==> (r <==> lastReb + RebFreq["monthly"] <= i)
    ensures r ==> lastReb + 5 <= i
    ensures lastReb + 63 <= i ==> r
  {
    i - lastReb >= RebalanceStep(freq)
  }

  /** The keyword arguments of `run_backtest`. */
  datatype Config = Config(
    window: nat,
    rebalance: string,
    tcBps: real,
    gamma: real,
    covMethod: string,
    targetVol: real,
    lmax: real)

  /** The defaults of `run_backtest`. */
  const DefaultConfig: Config := Config(252, "monthly", 5.0, 10.0, "shrinkage", 0.10, 1.5)

  /** Under the defaults the engine first rebalances on day 252, then every 21 days,
      with the shrinkage estimator and a cost of 0.0005 per unit of turnover. */
  lemma DefaultSchedule(d: int)
    ensures FirstRebalance(DefaultConfig) == 252 && RebalanceStep(DefaultConfig.rebalance) == 21
    ensures IsRebalanceDay(DefaultConfig, d) <==> 252 <= d && (d - 252) % 21 == 0
    ensures KnownEstimator(DefaultConfig.covMethod) && Lower(DefaultConfig.covMethod) == "shrinkage"
    ensures TransactionCost(DefaultConfig) == 0.0005
  {
  }

  /** Transaction cost per unit of turnover: basis points as a fraction. */
  function TransactionCost(cfg: Config): (tc: real)
    ensures tc * 10000.0 == cfg.tcBps
    ensures 0.0 <= cfg.tcBps ==> 0.0 <= tc
  {
    cfg.tcBps / 10000.0
  }

  /** The defaults `risk_parity_weights` is called with. */
  const RiskParityMaxIter: int := 500
  const RiskParityTol: real := 0.00000001

  // ================================================================
  // The rebalancing schedule in closed form.
  // ================================================================

  /** The first day the engine rebalances: no earlier than the window, and no
      earlier than one step after the initial `last_reb_index` of 0. */
  function FirstRebalance(cfg: Config): nat
  {
    var step := RebalanceStep(cfg.rebalance);
    if cfg.window < step then step else cfg.window
  }

  predicate IsRebalanceDay(cfg: Config, d: int)
  {
    FirstRebalance(cfg) <= d && (d - FirstRebalance(cfg)) % RebalanceStep(cfg.rebalance) == 0
  }

  /** The last rebalancing day strictly before day `i`, or 0 when there was none. */
  function LastRebalance(cfg: Config, i: int): int
  {
    var f := FirstRebalance(cfg);
    if i <= f then 0 else f + ((i - 1 - f) / RebalanceStep(cfg.rebalance)) * RebalanceStep(cfg.rebalance)
  }

  lemma MulAtLeast(x: int, b: int)
    requires 1 <= x && 0 < b
    ensures b <= x * b
  {
    var y := x - 1;
    assert x * b == y * b + b;
    assert 0 <= y * b;
  }

  /** Euclidean division is determined by its quotient-remainder equation. */
  lemma DivModUnique(a: int, b: int, q: int, r: int)
    requires 0 < b && 0 <= r < b && a == q * b + r
    ensures a / b == q && a % b == r
  {
    var q', r' := a / b, a % b;
    var gap := q - q';
    assert gap * b == r' - r by {
      assert a == q' * b + r';
      assert q * b - q' * b == (q - q') * b;
    }
    if gap >= 1 {
      MulAtLeast(gap, b);
    } else if gap <= -1 {
      MulAtLeast(-gap, b);
    }
  }

  /** `should_rebalance` applied to the engine's `last_reb_index` holds exactly on
      the days `FirstRebalance + k * step`, and the index then moves to that day. */
  lemma ScheduleStep(cfg: Config, d: int)
    requires cfg.window <= d
    ensures ShouldRebalance(d, cfg.rebalance, LastRebalance(cfg, d)) <==> IsRebalanceDay(cfg, d)
    ensures LastRebalance(cfg, d + 1) == if IsRebalanceDay(cfg, d) then d else LastRebalance(cfg, d)
  {
    var f := FirstRebalance(cfg);
    var step := RebalanceStep(cfg.rebalance);
    if d == f {
      DivModUnique(0, step, 0, 0);
    } else if d > f {
      var q := (d - 1 - f) / step;
      var r := (d - 1 - f) % step;
      DivModUnique(d - 1 - f, step, q, r);
      if r == step - 1 {
        DivModUnique(d - f, step, q + 1, 0);
      } else {
        DivModUnique(d - f, step, q, r + 1);
      }
    }
  }

  /** From the first rebalancing day on, the last rebalancing day up to and
      including day `d` is a rebalancing day no later than `d`. */
  lemma {:induction false} LastRebalanceIsRebalanceDay(cfg: Config, d: int)
    requires FirstRebalance(cfg) <= d
    ensures var r := LastRebalance(cfg, d + 1);
      IsRebalanceDay(cfg, r) && FirstRebalance(cfg) <= r <= d
    decreases d
  {
    ScheduleStep(cfg, d);
    if !IsRebalanceDay(cfg, d) {
      LastRebalanceIsRebalanceDay(cfg, d - 1);
    }
  }

  /** After a rebalance the next one comes exactly one step later. */
  lemma RebalanceSpacing(cfg: Config, d: int, e: int)
    requires IsRebalanceDay(cfg, d) && d < e
    ensures IsRebalanceDay(cfg, e) ==> d + RebalanceStep(cfg.rebalance) <= e
    ensures IsRebalanceDay(cfg, d + RebalanceStep(cfg.rebalance))
  {
    var f := FirstRebalance(cfg);
    var step := RebalanceStep(cfg.rebalance);
    var q := (d - f) / step;
    DivModUnique(d - f, step, q, 0);
    DivModUnique(d + step - f, step, q + 1, 0);
    if IsRebalanceDay(cfg, e) && e < d + step {
      DivModUnique(e - f, step, q, e - d);
    }
  }

  // ================================================================
  // One day of bookkeeping.
  // ================================================================

  /** The engine's dictionaries, each holding one entry per strategy in the order
      of `Strategies`: the current weights, the last rebalancing index, and the
      weight, turnover and return histories. */
  datatype State = State(
    prev: seq<Vector>,
    lastReb: int,
    weights: seq<Matrix>,
    turnover: seq<Vector>,
    rets: seq<Vector>)

  /** Every dictionary has an entry per strategy, and the current weights have `n` entries. */
  predicate Keyed(st: State, n: nat)
  {
    && |st.prev| == NumStrategies && |st.weights| == NumStrategies
    && |st.turnover| == NumStrategies && |st.rets| == NumStrategies
    && forall t :: 0 <= t < NumStrategies ==> |st.prev[t]| == n
  }

  /** Besides, every history holds `days` entries and the current weights are the last row recorded. */
  predicate Tracked(st: State, n: nat, days: nat)
  {
    && Keyed(st, n)
    && forall t :: 0 <= t < NumStrategies ==>
         && |st.weights[t]| == days && |st.turnover[t]| == days && |st.rets[t]| == days
         && (days > 0 ==> st.weights[t][days - 1] == st.prev[t])
  }

  /** A weight vector of `n` entries for every strategy. */
  predicate Targets(w: seq<Vector>, n: nat)
  {
    |w| == NumStrategies && forall t :: 0 <= t < NumStrategies ==> |w[t]| == n
  }

  /** The state before the first day: zero weights, empty histories, `last_reb_index = 0`. */
  function InitialState(n: nat): (st: State)
    ensures Tracked(st, n, 0) && st.lastReb == 0
    ensures forall t :: 0 <= t < NumStrategies ==> st.prev[t] == Zeros(n)
  {
    State(seq(NumStrategies, t => Zeros(n)), 0, seq(NumStrategies, t => []), seq(NumStrategies, t => []), seq(NumStrategies, t => []))
  }

  /** Turnover of moving from `prev` to `target`: the L1 distance on a rebalancing day, none otherwise. */
  function Turnover(target: Vector, prev: Vector, rebalance: bool): (t: real)
    requires |target| == |prev|
    ensures 0.0 <= t
  {
    if rebalance then L1Distance(target, prev) else 0.0
  }

  /** Cost charged for `turnover` at rate `tc`: nothing on a day without a
      rebalance, and at most `tc * turnover` (never negative) on one. */
  function Cost(tc: real, turnover: real, rebalance: bool): (c: real)
    ensures !rebalance ==> c == 0.0
    ensures 0.0 <= tc && 0.0 <= turnover ==> 0.0 <= c <= tc * turnover
    ensures tc == 0.0 || turnover == 0.0 ==> c == 0.0
  {
    if rebalance then tc * turnover else 0.0
  }

  /** The day's portfolio return net of the transaction cost: the gross return
      `target . today` on a day without a rebalance, less `tc` times the L1
      distance to the previous weights on a rebalancing day. */
  function DayReturn(target: Vector, prev: Vector, today: Vector, rebalance: bool, tc: real): (r: real)
    requires |target| == |prev| == |today|
    ensures !rebalance ==> r == Dot(target, today)
    ensures rebalance ==> r == Dot(target, today) - tc * L1Distance(target, prev)
    ensures 0.0 <= tc ==> r <= Dot(target, today)
    ensures target == prev ==> r == Dot(target, today)
  {
    Dot(target, today) - Cost(tc, Turnover(target, prev, rebalance), rebalance)
  }

  /** The inner loop of one day over all strategies. Each pass reads and writes
      only its own strategy's entries, so the loop's outcome, entry by entry, is:
      the target becomes current and is appended to the weights, and the turnover
      and the net return against the previous weights are appended. */
  function RecordDay(st: State, targets: seq<Vector>, rebalance: bool, today: Vector, tc: real, n: nat): (r: State)
    requires Keyed(st, n) && Targets(targets, n) && |today| == n
    ensures Keyed(r, n) && r.lastReb == st.lastReb && r.prev == targets
    ensures forall t :: 0 <= t < NumStrategies ==>
      && r.weights[t] == st.weights[t] + [targets[t]]
      && r.turnover[t] == st.turnover[t] + [Turnover(targets[t], st.prev[t], rebalance)]
      && r.rets[t] == st.rets[t] + [DayReturn(targets[t], st.prev[t], today, rebalance, tc)]
  {
    State(
      targets,
      st.lastReb,
      seq(NumStrategies, t requires 0 <= t < NumStrategies => st.weights[t] + [targets[t]]),
      seq(NumStrategies, t requires 0 <= t < NumStrategies => st.turnover[t] + [Turnover(targets[t], st.prev[t], rebalance)]),
      seq(NumStrategies, t requires 0 <= t < NumStrategies => st.rets[t] + [DayReturn(targets[t], st.prev[t], today, rebalance, tc)]))
  }

  /** One day adds one entry to every history and keeps the current weights the last row. */
  lemma RecordDayTracked(st: State, targets: seq<Vector>, rebalance: bool, today: Vector, tc: real, n: nat, days: nat)
    requires Tracked(st, n, days) && Targets(targets, n) && |today| == n
    ensures Tracked(RecordDay(st, targets, rebalance, today, tc, n), n, days + 1)
  {
  }

  /** The engine's inner loop over the strategies for one day: each pass
      computes the strategy's turnover and cost against its previous weights and
      its net return, appends the three, and makes the target current. */
  method RecordStrategies(st: State, newWeights: seq<Vector>, rebalance: bool, today: Vector, tc: real, n: nat)
    returns (prevWeights: seq<Vector>, weightsHist: seq<Matrix>, turnoverHist: seq<Vector>, returnsHist: seq<Vector>)
    requires Keyed(st, n) && Targets(newWeights, n) && |today| == n
    ensures State(prevWeights, st.lastReb, weightsHist, turnoverHist, returnsHist) == RecordDay(st, newWeights, rebalance, today, tc, n)
  {
    prevWeights, weightsHist, turnoverHist, returnsHist := st.prev, st.weights, st.turnover, st.rets;
    var k := 0;
    while k < NumStrategies
      invariant 0 <= k <= NumStrategies
      invariant |prevWeights| == NumStrategies && |weightsHist| == NumStrategies
      invariant |turnoverHist| == NumStrategies && |returnsHist| == NumStrategies
      invariant forall u :: 0 <= u < k ==>
        && prevWeights[u] == newWeights[u]
        && weightsHist[u] == st.weights[u] + [newWeights[u]]
        && turnoverHist[u] == st.turnover[u] + [Turnover(newWeights[u], st.prev[u], rebalance)]
        && returnsHist[u] == st.rets[u] + [DayReturn(newWeights[u], st.prev[u], today, rebalance, tc)]
      invariant forall u :: k <= u < NumStrategies ==>
        && prevWeights[u] == st.prev[u] && weightsHist[u] == st.weights[u]
        && turnoverHist[u] == st.turnover[u] && returnsHist[u] == st.rets[u]
    {
      var turnover := if rebalance then L1Distance(newWeights[k], prevWeights[k]) else 0.0;
      var cost := if rebalance then tc * turnover else 0.0;
      var portRet := Dot(newWeights[k], today) - cost;
      assert turnover == Turnover(newWeights[k], st.prev[k], rebalance);
      assert portRet == DayReturn(newWeights[k], st.prev[k], today, rebalance, tc);
      weightsHist := weightsHist[k := weightsHist[k] + [newWeights[k]]];
      turnoverHist := turnoverHist[k := turnoverHist[k] + [turnover]];
      returnsHist := returnsHist[k := returnsHist[k] + [portRet]];
      prevWeights := prevWeights[k := newWeights[k]];
      k := k + 1;
    }
    var r := RecordDay(st, newWeights, rebalance, today, tc, n);
    assert prevWeights == r.prev;
    assert weightsHist == r.weights;
    assert turnoverHist == r.turnover;
    assert returnsHist == r.rets;
  }

  // ================================================================
  // A rebalancing day's targets.
  // ================================================================

  /** The `new_weights` of a rebalancing day, for a given covariance estimate,
      one vector per strategy in the order of `Strategies`. */
  function Allocate(recent: Matrix, n: nat, cov: Matrix, cfg: Config, num: Numerics): (m: seq<Vector>)
    requires n >= 1 && IsTable(recent, n) && IsSquare(cov, n) && ValidNumerics(num)
    ensures Targets(m, n)
    ensures forall t :: 0 <= t < NumStrategies && t != Index(VolTargetRule) ==> OnSimplex(m[t])
  {
    var mu := ColumnMeans(recent, n);
    var ew := EqualWeight(n);
    var wMin := MinVarianceWeights(cov, num);
    var wMv := MeanVarianceWeights(mu, cov, cfg.gamma, num);
    var wRp := RiskParity(cov, RiskParityMaxIter, RiskParityTol);
    var wVol := ApplyVolTargeting(ew, recent, cfg.targetVol, cfg.lmax, num).risky;
    FiveTargets(ew, wMin, wMv, wRp, wVol, n);
    [ew, wMin, wMv, wRp, wVol]
  }

  /** Which allocator each strategy's target comes from. */
  lemma AllocateEntries(recent: Matrix, n: nat, cov: Matrix, cfg: Config, num: Numerics)
    requires n >= 1 && IsTable(recent, n) && IsSquare(cov, n) && ValidNumerics(num)
    ensures var m := Allocate(recent, n, cov, cfg, num);
      && m[Index(EqualWeightRule)] == EqualWeight(n)
      && m[Index(MinVarianceRule)] == MinVarianceWeights(cov, num)
      && m[Index(MeanVarianceRule)] == MeanVarianceWeights(ColumnMeans(recent, n), cov, cfg.gamma, num)
      && m[Index(RiskParityRule)] == RiskParity(cov, RiskParityMaxIter, RiskParityTol)
      && m[Index(VolTargetRule)] == ApplyVolTargeting(EqualWeight(n), recent, cfg.targetVol, cfg.lmax, num).risky
  {
    var ew := EqualWeight(n);
    var wMin := MinVarianceWeights(cov, num);
    var wMv := MeanVarianceWeights(ColumnMeans(recent, n), cov, cfg.gamma, num);
    var wRp := RiskParity(cov, RiskParityMaxIter, RiskParityTol);
    var wVol := ApplyVolTargeting(ew, recent, cfg.targetVol, cfg.lmax, num).risky;
    assert Allocate(recent, n, cov, cfg, num) == [ew, wMin, wMv, wRp, wVol];
    FiveEntries(ew, wMin, wMv, wRp, wVol);
  }

  lemma FiveEntries<T>(a: T, b: T, c: T, d: T, e: T)
    ensures var m := [a, b, c, d, e];
      && m[Index(EqualWeightRule)] == a && m[Index(MinVarianceRule)] == b && m[Index(MeanVarianceRule)] == c
      && m[Index(RiskParityRule)] == d && m[Index(VolTargetRule)] == e
  {
  }

  /** Five vectors of `n` entries, the first four on the simplex, listed in strategy order. */
  lemma FiveTargets(ew: Vector, wMin: Vector, wMv: Vector, wRp: Vector, wVol: Vector, n: nat)
    requires |ew| == n && |wMin| == n && |wMv| == n && |wRp| == n && |wVol| == n
    ensures Targets([ew, wMin, wMv, wRp, wVol], n)
    ensures OnSimplex(ew) && OnSimplex(wMin) && OnSimplex(wMv) && OnSimplex(wRp) ==>
      forall t :: 0 <= t < NumStrategies && t != Index(VolTargetRule) ==> OnSimplex([ew, wMin, wMv, wRp, wVol][t])
  {
  }

  /** The windows the allocation step is defined on: an unknown estimator name
      fails on any window; a known one needs an asset, a row for the means, and
      the two rows the sample and shrinkage estimators divide by. */
  predicate Estimable(n: nat, rows: nat, name: string)
  {
    !KnownEstimator(name) || (n >= 1 && 1 <= rows && EnoughRows(rows, name))
  }

  /** The targets computed from the trailing window. The covariance is estimated
      first, so an unknown estimator name fails the day before any weight is computed. */
  function TargetWeights(recent: Matrix, n: nat, cfg: Config, num: Numerics): (r: Result<seq<Vector>, string>)
    requires IsTable(recent, n) && Estimable(n, |recent|, cfg.covMethod) && ValidNumerics(num)
    ensures r.Failure? <==> !KnownEstimator(cfg.covMethod)
    ensures r.Failure? ==> r.error == "Unknown covariance estimator: " + Lower(cfg.covMethod)
    ensures r.Success? ==> r.value == Allocate(recent, n, GetCovariance(recent, n, cfg.covMethod, DefaultLambda, num).value, cfg, num)
  {
    var cov :- GetCovariance(recent, n, cfg.covMethod, DefaultLambda, num);
    Success(Allocate(recent, n, cov, cfg, num))
  }

  /** The rebalancing branch of the engine's loop: the covariance estimate, whose
      error ends the run, then the five allocations of the trailing window. */
  method RebalanceTargets(recent: Matrix, n: nat, cfg: Config, num: Numerics) returns (r: Result<seq<Vector>, string>)
    requires IsTable(recent, n) && Estimable(n, |recent|, cfg.covMethod) && ValidNumerics(num)
    ensures r == TargetWeights(recent, n, cfg, num)
  {
    var covResult := GetCovariance(recent, n, cfg.covMethod, DefaultLambda, num);
    if covResult.Failure? {
      return Failure(covResult.error);
    }
    var cov := covResult.value;
    var mu := ColumnMeans(recent, n);
    var ew := EqualWeight(n);
    var wMin := MinVarianceWeights(cov, num);
    var wMv := MeanVarianceWeights(mu, cov, cfg.gamma, num);
    var wRp;
    ghost var iterations;
    wRp, iterations := RiskParityWeights(cov, RiskParityMaxIter, RiskParityTol);
    var volInfo := ApplyVolTargeting(ew, recent, cfg.targetVol, cfg.lmax, num);
    var wVol := volInfo.risky;
    r := Success([ew, wMin, wMv, wRp, wVol]);
    assert r.value == Allocate(recent, n, cov, cfg, num);
  }

  // ================================================================
  // The engine's loop, for any allocation step.
  // ================================================================

  /** What a rebalancing day computes from its trailing window: a target vector
      per strategy, or the error that aborts the run. */
  type Rule = Matrix -> Result<seq<Vector>, string>

  /** A rule that succeeds answers with `n` weights for every strategy. */
  ghost predicate Admissible(rule: Rule, n: nat)
  {
    forall w :: rule(w).Success? ==> Targets(rule(w).value, n)
  }

  /** Conditions under which the engine's loop is defined: rows of `n` returns,
      and a trailing window the allocation step is defined on whenever a
      rebalancing day falls inside the data. */
  predicate Runnable(data: Matrix, n: nat, cfg: Config)
  {
    IsTable(data, n) && (|data| <= FirstRebalance(cfg) || Estimable(n, cfg.window, cfg.covMethod))
  }

  /** The trailing window `returns.iloc[i - window : i]`. */
  function Window(data: Matrix, n: nat, cfg: Config, i: nat): (w: Matrix)
    requires Runnable(data, n, cfg) && cfg.window <= i <= |data|
    ensures |w| == cfg.window && IsTable(w, n)
  {
    data[i - cfg.window..i]
  }

  /** The body of the engine's loop for day `i`. */
  function Day(data: Matrix, n: nat, cfg: Config, rule: Rule, i: nat, st: State): (r: Result<State, string>)
    requires Runnable(data, n, cfg) && cfg.window <= i < |data| && Admissible(rule, n) && Keyed(st, n)
    ensures r.Success? ==> Keyed(r.value, n)
    ensures r.Failure? <==> ShouldRebalance(i, cfg.rebalance, st.lastReb) && rule(Window(data, n, cfg, i)).Failure?
    ensures r.Failure? ==> r.error == rule(Window(data, n, cfg, i)).error
    ensures r.Success? ==> r.value.lastReb == if ShouldRebalance(i, cfg.rebalance, st.lastReb) then i else st.lastReb
  {
    if ShouldRebalance(i, cfg.rebalance, st.lastReb) then
      var targets :- rule(Window(data, n, cfg, i));
      Success(RecordDay(st.(lastReb := i), targets, true, data[i], TransactionCost(cfg), n))
    else
      Success(RecordDay(st, st.prev, false, data[i], TransactionCost(cfg), n))
  }

  /** What one day appends to every strategy's histories. */
  lemma DayEffect(data: Matrix, n: nat, cfg: Config, rule: Rule, i: nat, st: State, days: nat)
    requires Runnable(data, n, cfg) && cfg.window <= i < |data| && Admissible(rule, n)
    requires Tracked(st, n, days) && Day(data, n, cfg, rule, i, st).Success?
    ensures var r := Day(data, n, cfg, rule, i, st).value;
      var rebalance := ShouldRebalance(i, cfg.rebalance, st.lastReb);
      var targets := if rebalance then rule(Window(data, n, cfg, i)).value else st.prev;
      && Tracked(r, n, days + 1)
      && r.prev == targets
      && forall t :: 0 <= t < NumStrategies ==>
           && r.weights[t] == st.weights[t] + [targets[t]]
           && r.turnover[t] == st.turnover[t] + [Turnover(targets[t], st.prev[t], rebalance)]
           && r.rets[t] == st.rets[t] + [DayReturn(targets[t], st.prev[t], data[i], rebalance, TransactionCost(cfg))]
  {
    if ShouldRebalance(i, cfg.rebalance, st.lastReb) {
      var targets := rule(Window(data, n, cfg, i)).value;
      RecordDayTracked(st.(lastReb := i), targets, true, data[i], TransactionCost(cfg), n, days);
    } else {
      RecordDayTracked(st, st.prev, false, data[i], TransactionCost(cfg), n, days);
    }
  }

  /** The engine's state after the days `window .. i - 1`, or the error raised on one of them. */
  function SimulateUpTo(data: Matrix, n: nat, cfg: Config, rule: Rule, i: nat): (r: Result<State, string>)
    requires Runnable(data, n, cfg) && cfg.window <= i <= |data| && Admissible(rule, n)
    ensures r.Success? ==> Keyed(r.value, n)
    decreases i
  {
    if i == cfg.window then Success(InitialState(n))
    else
      match SimulateUpTo(data, n, cfg, rule, i - 1)
      case Failure(e) => Failure(e)
      case Success(st) => Day(data, n, cfg, rule, i - 1, st)
  }

  /** After the days `window .. i - 1` every history holds `i - window` entries,
      and the current weights are the last ones recorded. */
  lemma {:induction false} SimulateTracked(data: Matrix, n: nat, cfg: Config, rule: Rule, i: nat)
    requires Runnable(data, n, cfg) && cfg.window <= i <= |data| && Admissible(rule, n)
    requires SimulateUpTo(data, n, cfg, rule, i).Success?
    ensures Tracked(SimulateUpTo(data, n, cfg, rule, i).value, n, i - cfg.window)
    decreases i
  {
    if i == cfg.window {
      TrackedBase(data, n, cfg, rule, i);
    } else {
      SimulateTracked(data, n, cfg, rule, i - 1);
      TrackedStep(data, n, cfg, rule, i);
    }
  }

  lemma TrackedBase(data: Matrix, n: nat, cfg: Config, rule: Rule, i: nat)
    requires Runnable(data, n, cfg) && cfg.window == i <= |data| && Admissible(rule, n)
    ensures Tracked(SimulateUpTo(data, n, cfg, rule, i).value, n, 0)
  {
    assert SimulateUpTo(data, n, cfg, rule, i) == Success(InitialState(n));
  }

  lemma TrackedStep(data: Matrix, n: nat, cfg: Config, rule: Rule, i: nat)
    requires Runnable(data, n, cfg) && cfg.window < i <= |data| && Admissible(rule, n)
    requires SimulateUpTo(data, n, cfg, rule, i).Success?
    requires SimulateUpTo(data, n, cfg, rule, i - 1).Success? ==> Tracked(SimulateUpTo(data, n, cfg, rule, i - 1).value, n, i - 1 - cfg.window)
    ensures Tracked(SimulateUpTo(data, n, cfg, rule, i).value, n, i - cfg.window)
  {
    SimulateStep(data, n, cfg, rule, i);
    var st := SimulateUpTo(data, n, cfg, rule, i - 1).value;
    DayTracked(data, n, cfg, rule, i - 1, st, i - 1 - cfg.window);
  }

  /** One more day: a successful state came from a successful state and its `Day`. */
  lemma SimulateStep(data: Matrix, n: nat, cfg: Config, rule: Rule, i: nat)
    requires Runnable(data, n, cfg) && cfg.window < i <= |data| && Admissible(rule, n)
    requires SimulateUpTo(data, n, cfg, rule, i).Success?
    ensures SimulateUpTo(data, n, cfg, rule, i - 1).Success?
    ensures SimulateUpTo(data, n, cfg, rule, i) == Day(data, n, cfg, rule, i - 1, SimulateUpTo(data, n, cfg, rule, i - 1).value)
  {
  }

  lemma DayTracked(data: Matrix, n: nat, cfg: Config, rule: Rule, i: nat, st: State, days: nat)
    requires Runnable(data, n, cfg) && cfg.window <= i < |data| && Admissible(rule, n)
    requires Tracked(st, n, days)
    ensures Day(data, n, cfg, rule, i, st).Success? ==> Tracked(Day(data, n, cfg, rule, i, st).value, n, days + 1)
  {
    if Day(data, n, cfg, rule, i, st).Success? {
      DayEffect(data, n, cfg, rule, i, st, days);
    }
  }

  /** Once a day has raised, the run's outcome is that error. */
  lemma {:induction false} SimulateFailurePersists(data: Matrix, n: nat, cfg: Config, rule: Rule, j: nat, k: nat)
    requires Runnable(data, n, cfg) && cfg.window <= j <= k <= |data| && Admissible(rule, n)
    requires SimulateUpTo(data, n, cfg, rule, j).Failure?
    ensures SimulateUpTo(data, n, cfg, rule, k) == SimulateUpTo(data, n, cfg, rule, j)
    decreases k
  {
    if k > j {
      SimulateFailurePersists(data, n, cfg, rule, j, k - 1);
    }
  }

  /** The engine's `last_reb_index` is always the closed-form last rebalancing day. */
  lemma {:induction false} SimulateSchedule(data: Matrix, n: nat, cfg: Config, rule: Rule, i: nat)
    requires Runnable(data, n, cfg) && cfg.window <= i <= |data| && Admissible(rule, n)
    requires SimulateUpTo(data, n, cfg, rule, i).Success?
    ensures SimulateUpTo(data, n, cfg, rule, i).value.lastReb == LastRebalance(cfg, i)
    decreases i
  {
    if i > cfg.window {
      var prev := SimulateUpTo(data, n, cfg, rule, i - 1);
      SimulateSchedule(data, n, cfg, rule, i - 1);
      ScheduleStep(cfg, i - 1);
    }
  }

  /** When the rule fails on every window or on none, the run fails exactly when
      the first rebalancing day `max(window, step)` has been reached, with the rule's error. */
  lemma {:induction false} SimulateOutcome(data: Matrix, n: nat, cfg: Config, rule: Rule, i: nat, fails: bool, msg: string)
    requires Runnable(data, n, cfg) && cfg.window <= i <= |data| && Admissible(rule, n)
    requires FirstRebalance(cfg) < |data| ==> forall w :: IsTable(w, n) && |w| == cfg.window ==> (rule(w).Failure? <==> fails)
    requires FirstRebalance(cfg) < |data| ==> forall w :: IsTable(w, n) && |w| == cfg.window && rule(w).Failure? ==> rule(w).error == msg
    ensures SimulateUpTo(data, n, cfg, rule, i).Success? <==> (!fails || i <= FirstRebalance(cfg))
    ensures SimulateUpTo(data, n, cfg, rule, i).Failure? ==> SimulateUpTo(data, n, cfg, rule, i).error == msg
    decreases i
  {
    if i > cfg.window {
      SimulateOutcome(data, n, cfg, rule, i - 1, fails, msg);
      var w := Window(data, n, cfg, i - 1);
      if IsRebalanceDay(cfg, i - 1) {
        assert rule(w).Failure? <==> fails;
      }
      OutcomeStep(data, n, cfg, rule, i, fails, msg);
    }
  }

  lemma OutcomeStep(data: Matrix, n: nat, cfg: Config, rule: Rule, i: nat, fails: bool, msg: string)
    requires Runnable(data, n, cfg) && cfg.window < i <= |data| && Admissible(rule, n)
    requires IsRebalanceDay(cfg, i - 1) ==> (rule(Window(data, n, cfg, i - 1)).Failure? <==> fails)
    requires IsRebalanceDay(cfg, i - 1) && rule(Window(data, n, cfg, i - 1)).Failure? ==> rule(Window(data, n, cfg, i - 1)).error == msg
    requires SimulateUpTo(data, n, cfg, rule, i - 1).Success? <==> (!fails || i - 1 <= FirstRebalance(cfg))
    requires SimulateUpTo(data, n, cfg, rule, i - 1).Failure? ==> SimulateUpTo(data, n, cfg, rule, i - 1).error == msg
    ensures SimulateUpTo(data, n, cfg, rule, i).Success? <==> (!fails || i <= FirstRebalance(cfg))
    ensures SimulateUpTo(data, n, cfg, rule, i).Failure? ==> SimulateUpTo(data, n, cfg, rule, i).error == msg
  {
    var prev := SimulateUpTo(data, n, cfg, rule, i - 1);
    if prev.Success? {
      var r := Day(data, n, cfg, rule, i - 1, prev.value);
      assert SimulateUpTo(data, n, cfg, rule, i) == r;
      SimulateSchedule(data, n, cfg, rule, i - 1);
      ScheduleStep(cfg, i - 1);
      var reb := ShouldRebalance(i - 1, cfg.rebalance, prev.value.lastReb);
      assert reb <==> IsRebalanceDay(cfg, i - 1);
      assert r.Failure? <==> reb && fails;
      if fails {
        RebalanceDayUpToFirst(cfg, i - 1);
        assert reb <==> i - 1 == FirstRebalance(cfg);
      }
    }
  }

  /** Up to the first rebalancing day, the first is the only one. */
  lemma RebalanceDayUpToFirst(cfg: Config, d: int)
    requires d <= FirstRebalance(cfg)
    ensures IsRebalanceDay(cfg, d) <==> d == FirstRebalance(cfg)
  {
  }

  /** Strategy `t`'s histories in `a` are prefixes of those in `b`. */
  predicate Extends(a: State, b: State, t: nat)
  {
    && t < |a.weights| && t < |a.turnover| && t < |a.rets|
    && t < |b.weights| && t < |b.turnover| && t < |b.rets|
    && a.weights[t] <= b.weights[t] && a.turnover[t] <= b.turnover[t] && a.rets[t] <= b.rets[t]
  }

  lemma ExtendsTransitive(a: State, b: State, c: State, t: nat)
    requires Extends(a, b, t) && Extends(b, c, t)
    ensures Extends(a, c, t)
  {
    PrefixTransitive(a.weights[t], b.weights[t], c.weights[t]);
    PrefixTransitive(a.turnover[t], b.turnover[t], c.turnover[t]);
    PrefixTransitive(a.rets[t], b.rets[t], c.rets[t]);
  }

  lemma PrefixTransitive<T>(a: seq<T>, b: seq<T>, c: seq<T>)
    requires a <= b && b <= c
    ensures a <= c
  {
    assert forall u :: 0 <= u < |a| ==> a[u] == b[u];
  }

  /** The run with rule `rule` is defined up to day `i` and has not failed by then. */
  ghost predicate Reached(data: Matrix, n: nat, cfg: Config, rule: Rule, i: nat)
  {
    && Runnable(data, n, cfg) && cfg.window <= i <= |data| && Admissible(rule, n)
    && SimulateUpTo(data, n, cfg, rule, i).Success?
  }

  /** Later states extend the histories of earlier ones. */
  lemma {:induction false} HistoryPrefix(data: Matrix, n: nat, cfg: Config, rule: Rule, j: nat, k: nat, t: nat)
    requires Reached(data, n, cfg, rule, k) && cfg.window <= j <= k && t < NumStrategies
    ensures Reached(data, n, cfg, rule, j)
    ensures Extends(SimulateUpTo(data, n, cfg, rule, j).value, SimulateUpTo(data, n, cfg, rule, k).value, t)
    decreases k
  {
    if k > j {
      PrefixStep(data, n, cfg, rule, k, t);
      HistoryPrefix(data, n, cfg, rule, j, k - 1, t);
      ExtendsTransitive(SimulateUpTo(data, n, cfg, rule, j).value, SimulateUpTo(data, n, cfg, rule, k - 1).value,
                        SimulateUpTo(data, n, cfg, rule, k).value, t);
    }
  }

  /** One day appends one entry to each history of the day before. */
  lemma PrefixStep(data: Matrix, n: nat, cfg: Config, rule: Rule, k: nat, t: nat)
    requires Reached(data, n, cfg, rule, k) && cfg.window < k && t < NumStrategies
    ensures Reached(data, n, cfg, rule, k - 1)
    ensures Extends(SimulateUpTo(data, n, cfg, rule, k - 1).value, SimulateUpTo(data, n, cfg, rule, k).value, t)
  {
    SimulateStep(data, n, cfg, rule, k);
    SimulateTracked(data, n, cfg, rule, k - 1);
    var c := SimulateUpTo(data, n, cfg, rule, k - 1).value;
    DayEffect(data, n, cfg, rule, k - 1, c, k - 1 - cfg.window);
  }

  /** An entry of a prefix is the entry of the longer sequence. */
  lemma PrefixEntry<T>(a: seq<T>, b: seq<T>, j: nat)
    requires a <= b && j < |a|
    ensures b[j] == a[j]
  {
  }

  /** The state of day `d + 1`, entry `d - window` of its histories: the day's
      target, its turnover and its net return, with the schedule read as `IsRebalanceDay`. */
  lemma DayEntry(data: Matrix, n: nat, cfg: Config, rule: Rule, d: nat, t: nat)
    requires Runnable(data, n, cfg) && cfg.window <= d < |data| && Admissible(rule, n) && t < NumStrategies
    requires SimulateUpTo(data, n, cfg, rule, d + 1).Success?
    ensures SimulateUpTo(data, n, cfg, rule, d).Success?
    ensures Tracked(SimulateUpTo(data, n, cfg, rule, d).value, n, d - cfg.window)
    ensures Tracked(SimulateUpTo(data, n, cfg, rule, d + 1).value, n, d + 1 - cfg.window)
    ensures IsRebalanceDay(cfg, d) ==> rule(Window(data, n, cfg, d)).Success?
    ensures var after := SimulateUpTo(data, n, cfg, rule, d + 1).value;
      var before := SimulateUpTo(data, n, cfg, rule, d).value;
      var j := d - cfg.window;
      var rebalance := IsRebalanceDay(cfg, d);
      var target := if rebalance then rule(Window(data, n, cfg, d)).value[t] else before.prev[t];
      && after.weights[t][j] == target
      && after.turnover[t][j] == Turnover(target, before.prev[t], rebalance)
      && after.rets[t][j] == DayReturn(target, before.prev[t], data[d], rebalance, TransactionCost(cfg))
  {
    SimulateStep(data, n, cfg, rule, d + 1);
    SimulateTracked(data, n, cfg, rule, d);
    var before := SimulateUpTo(data, n, cfg, rule, d).value;
    SimulateSchedule(data, n, cfg, rule, d);
    ScheduleStep(cfg, d);
    DayEffect(data, n, cfg, rule, d, before, d - cfg.window);
  }

  /** The current weights of day `d`'s state: zero before the first day, the last row recorded after. */
  lemma PrevWeights(data: Matrix, n: nat, cfg: Config, rule: Rule, d: nat, t: nat)
    requires Runnable(data, n, cfg) && cfg.window <= d <= |data| && Admissible(rule, n) && t < NumStrategies
    requires SimulateUpTo(data, n, cfg, rule, d).Success?
    ensures Tracked(SimulateUpTo(data, n, cfg, rule, d).value, n, d - cfg.window)
    ensures var before := SimulateUpTo(data, n, cfg, rule, d).value;
      before.prev[t] == if d == cfg.window then Zeros(n) else before.weights[t][d - cfg.window - 1]
  {
    SimulateTracked(data, n, cfg, rule, d);
    if d == cfg.window {
      assert SimulateUpTo(data, n, cfg, rule, d) == Success(InitialState(n));
    }
  }

  /** What the histories hold for day `d`, read off the state after any later day `k`:
      the day's target (the rule's answer on a rebalancing day, the previous weights
      otherwise), its turnover against the previous row, and its net return. */
  lemma RecordedDay(data: Matrix, n: nat, cfg: Config, rule: Rule, k: nat, d: nat, t: nat)
    requires Runnable(data, n, cfg) && cfg.window <= d < k <= |data| && Admissible(rule, n) && t < NumStrategies
    requires SimulateUpTo(data, n, cfg, rule, k).Success?
    ensures SimulateUpTo(data, n, cfg, rule, d).Success?
    ensures Tracked(SimulateUpTo(data, n, cfg, rule, k).value, n, k - cfg.window)
    ensures IsRebalanceDay(cfg, d) ==> rule(Window(data, n, cfg, d)).Success?
    ensures var fin := SimulateUpTo(data, n, cfg, rule, k).value;
      var before := SimulateUpTo(data, n, cfg, rule, d).value;
      var j := d - cfg.window;
      var rebalance := IsRebalanceDay(cfg, d);
      var target := if rebalance then rule(Window(data, n, cfg, d)).value[t] else before.prev[t];
      && before.prev[t] == (if j == 0 then Zeros(n) else fin.weights[t][j - 1])
      && fin.weights[t][j] == target
      && fin.turnover[t][j] == Turnover(target, before.prev[t], rebalance)
      && fin.rets[t][j] == DayReturn(target, before.prev[t], data[d], rebalance, TransactionCost(cfg))
  {
    RecordedEntries(data, n, cfg, rule, k, d, t);
    RecordedPrev(data, n, cfg, rule, k, d, t);
  }

  lemma RecordedEntries(data: Matrix, n: nat, cfg: Config, rule: Rule, k: nat, d: nat, t: nat)
    requires Runnable(data, n, cfg) && cfg.window <= d < k <= |data| && Admissible(rule, n) && t < NumStrategies
    requires SimulateUpTo(data, n, cfg, rule, k).Success?
    ensures SimulateUpTo(data, n, cfg, rule, d).Success?
    ensures Tracked(SimulateUpTo(data, n, cfg, rule, d).value, n, d - cfg.window)
    ensures Tracked(SimulateUpTo(data, n, cfg, rule, k).value, n, k - cfg.window)
    ensures IsRebalanceDay(cfg, d) ==> rule(Window(data, n, cfg, d)).Success?
    ensures var fin := SimulateUpTo(data, n, cfg, rule, k).value;
      var before := SimulateUpTo(data, n, cfg, rule, d).value;
      var j := d - cfg.window;
      var rebalance := IsRebalanceDay(cfg, d);
      var target := if rebalance then rule(Window(data, n, cfg, d)).value[t] else before.prev[t];
      && fin.weights[t][j] == target
      && fin.turnover[t][j] == Turnover(target, before.prev[t], rebalance)
      && fin.rets[t][j] == DayReturn(target, before.prev[t], data[d], rebalance, TransactionCost(cfg))
  {
    HistoryPrefix(data, n, cfg, rule, d + 1, k, t);
    DayEntry(data, n, cfg, rule, d, t);
    SimulateTracked(data, n, cfg, rule, k);
    var after := SimulateUpTo(data, n, cfg, rule, d + 1).value;
    var fin := SimulateUpTo(data, n, cfg, rule, k).value;
    var j := d - cfg.window;
    PrefixEntry(after.weights[t], fin.weights[t], j);
    PrefixEntry(after.turnover[t], fin.turnover[t], j);
    PrefixEntry(after.rets[t], fin.rets[t], j);
  }

  lemma RecordedPrev(data: Matrix, n: nat, cfg: Config, rule: Rule, k: nat, d: nat, t: nat)
    requires Runnable(data, n, cfg) && cfg.window <= d < k <= |data| && Admissible(rule, n) && t < NumStrategies
    requires SimulateUpTo(data, n, cfg, rule, k).Success?
    ensures SimulateUpTo(data, n, cfg, rule, d).Success?
    ensures Tracked(SimulateUpTo(data, n, cfg, rule, d).value, n, d - cfg.window)
    ensures Tracked(SimulateUpTo(data, n, cfg, rule, k).value, n, k - cfg.window)
    ensures var fin := SimulateUpTo(data, n, cfg, rule, k).value;
      var before := SimulateUpTo(data, n, cfg, rule, d).value;
      var j := d - cfg.window;
      before.prev[t] == (if j == 0 then Zeros(n) else fin.weights[t][j - 1])
  {
    HistoryPrefix(data, n, cfg, rule, d, k, t);
    PrevWeights(data, n, cfg, rule, d, t);
    SimulateTracked(data, n, cfg, rule, k);
    var before := SimulateUpTo(data, n, cfg, rule, d).value;
    var fin := SimulateUpTo(data, n, cfg, rule, k).value;
    var j := d - cfg.window;
    if j > 0 {
      PrefixEntry(before.weights[t], fin.weights[t], j - 1);
    }
  }

  // ================================================================
  // The whole run.
  // ================================================================

  /** The engine's allocation step: `TargetWeights` on the trailing window.
      A function value must answer every table; the `Failure(NotEnoughData)` arm
      answers the ones that are not trailing windows of a `Runnable` run, and the
      engine never applies the rule to those. */
  function AllocationRule(n: nat, cfg: Config, num: Numerics): (rule: Rule)
    requires ValidNumerics(num)
    ensures Admissible(rule, n)
    ensures forall w :: IsTable(w, n) && Estimable(n, |w|, cfg.covMethod) ==> rule(w) == TargetWeights(w, n, cfg, num)
  {
    w => if IsTable(w, n) && Estimable(n, |w|, cfg.covMethod) then TargetWeights(w, n, cfg, num) else Failure(NotEnoughData)
  }

  /** `BacktestResult`: the return, weight and turnover tables and the metrics
      table, with one column (one row of metrics) per strategy, in the order of
      `Strategies` and under the names `StrategyName` gives. */
  datatype BacktestResult = BacktestResult(
    portfolioReturns: seq<Vector>,
    weights: seq<Matrix>,
    turnover: seq<Vector>,
    metrics: seq<MetricsRecord>)

  const NotEnoughData: string := "Not enough data for the chosen window length."

  /** `compute_metrics` of each strategy's return and turnover columns. */
  function MetricsRows(rets: seq<Vector>, turnover: seq<Vector>, targetVol: real, num: Numerics): (m: seq<MetricsRecord>)
    requires |turnover| == |rets| && (forall t :: 0 <= t < |rets| ==> rets[t] != []) && ValidNumerics(num)
    ensures |m| == |rets| && forall t :: 0 <= t < |rets| ==> m[t] == ComputeMetrics(rets[t], turnover[t], targetVol, num)
  {
    seq(|rets|, t requires 0 <= t < |rets| => ComputeMetrics(rets[t], turnover[t], targetVol, num))
  }

  /** The tables of a run over `days` days: a column per strategy, `days` rows in
      each, and each strategy's metrics row computed from its own columns. */
  predicate Reported(res: BacktestResult, days: nat, targetVol: real, num: Numerics)
    requires ValidNumerics(num)
  {
    && |res.portfolioReturns| == NumStrategies && |res.weights| == NumStrategies
    && |res.turnover| == NumStrategies && |res.metrics| == NumStrategies
    && forall t :: 0 <= t < NumStrategies ==>
         && |res.portfolioReturns[t]| == days && |res.weights[t]| == days && |res.turnover[t]| == days
         && (days > 0 ==> res.metrics[t] == ComputeMetrics(res.portfolioReturns[t], res.turnover[t], targetVol, num))
  }

  /** The `BacktestResult` built from the engine's final dictionaries. */
  function Report(st: State, n: nat, days: nat, targetVol: real, num: Numerics): (res: BacktestResult)
    requires Tracked(st, n, days) && 0 < days && ValidNumerics(num)
    ensures Reported(res, days, targetVol, num)
    ensures res.portfolioReturns == st.rets && res.weights == st.weights && res.turnover == st.turnover
  {
    BacktestResult(st.rets, st.weights, st.turnover, MetricsRows(st.rets, st.turnover, targetVol, num))
  }

  /** `run_backtest`: too short a history is an error, and so is an unknown
      covariance estimator once a rebalancing day is reached. */
  function BacktestRun(data: Matrix, n: nat, cfg: Config, num: Numerics): (r: Result<BacktestResult, string>)
    requires Runnable(data, n, cfg) && ValidNumerics(num)
    ensures |data| <= cfg.window ==> r == Failure(NotEnoughData)
    ensures r.Success? ==> |data| > cfg.window && Reported(r.value, |data| - cfg.window, cfg.targetVol, num)
  {
    if |data| <= cfg.window then Failure(NotEnoughData)
    else
      var rule := AllocationRule(n, cfg, num);
      var st :- SimulateUpTo(data, n, cfg, rule, |data|);
      SimulateTracked(data, n, cfg, rule, |data|);
      Success(Report(st, n, |data| - cfg.window, cfg.targetVol, num))
  }

  /** A state reached on day `i` is followed by that day's `Day`. */
  lemma SimulateAfter(data: Matrix, n: nat, cfg: Config, rule: Rule, i: nat, st: State)
    requires Runnable(data, n, cfg) && cfg.window <= i < |data| && Admissible(rule, n)
    requires SimulateUpTo(data, n, cfg, rule, i) == Success(st)
    ensures Keyed(st, n)
    ensures SimulateUpTo(data, n, cfg, rule, i + 1) == Day(data, n, cfg, rule, i, st)
  {
  }

  /** One pass of the engine's loop over the days: the trailing window, today's
      returns, the rebalancing decision, the targets (the allocation step's answer
      on a rebalancing day, the current weights otherwise) and the inner loop
      over the strategies. */
  method RunDay(data: Matrix, n: nat, cfg: Config, rule: Rule, i: nat, st: State) returns (r: Result<State, string>)
    requires Runnable(data, n, cfg) && cfg.window <= i < |data| && Admissible(rule, n) && Keyed(st, n)
    ensures r == Day(data, n, cfg, rule, i, st)
  {
    var windowRets := data[i - cfg.window..i];
    var todaysRet := data[i];
    var rebalanceToday := ShouldRebalance(i, cfg.rebalance, st.lastReb);
    var lastReb := st.lastReb;
    var newWeights: seq<Vector>;
    if rebalanceToday {
      var targets := rule(windowRets);
      if targets.Failure? {
        return Failure(targets.error);
      }
      newWeights := targets.value;
      lastReb := i;
    } else {
      newWeights := st.prev;
    }
    var prevWeights, weightsHist, turnoverHist, returnsHist := RecordStrategies(st.(lastReb := lastReb), newWeights, rebalanceToday, todaysRet, TransactionCost(cfg), n);
    r := Success(State(prevWeights, lastReb, weightsHist, turnoverHist, returnsHist));
  }

  /** The engine's loop over the days `window .. |data| - 1`, from zero weights and
      empty histories; the first error raised ends it. */
  method RunDays(data: Matrix, n: nat, cfg: Config, rule: Rule) returns (r: Result<State, string>)
    requires Runnable(data, n, cfg) && cfg.window <= |data| && Admissible(rule, n)
    ensures r == SimulateUpTo(data, n, cfg, rule, |data|)
  {
    var st := State(seq(NumStrategies, _ => Zeros(n)), 0, seq(NumStrategies, _ => []), seq(NumStrategies, _ => []), seq(NumStrategies, _ => []));
    assert st == InitialState(n);
    var i := cfg.window;
    while i < |data|
      invariant cfg.window <= i <= |data|
      invariant SimulateUpTo(data, n, cfg, rule, i) == Success(st)
    {
      SimulateAfter(data, n, cfg, rule, i, st);
      var next := RunDay(data, n, cfg, rule, i, st);
      if next.Failure? {
        SimulateFailurePersists(data, n, cfg, rule, i + 1, |data|);
        return next;
      }
      st := next.value;
      i := i + 1;
    }
    r := Success(st);
  }

  lemma PrefixAppend<T>(m: seq<T>, k: nat)
    requires k < |m|
    ensures m[..k + 1] == m[..k] + [m[k]]
  {
  }

  /** The loop building the metrics table, one row per strategy. */
  method MetricsTable(rets: seq<Vector>, turnover: seq<Vector>, targetVol: real, num: Numerics) returns (rows: seq<MetricsRecord>)
    requires |turnover| == |rets| && (forall t :: 0 <= t < |rets| ==> rets[t] != []) && ValidNumerics(num)
    ensures rows == MetricsRows(rets, turnover, targetVol, num)
  {
    rows := [];
    var k := 0;
    while k < |rets|
      invariant 0 <= k <= |rets|
      invariant rows == MetricsRows(rets, turnover, targetVol, num)[..k]
    {
      PrefixAppend(MetricsRows(rets, turnover, targetVol, num), k);
      rows := rows + [ComputeMetrics(rets[k], turnover[k], targetVol, num)];
      k := k + 1;
    }
  }

  /** `run_backtest`, proved to compute `BacktestRun`: the length check, the loop over
      the days with the engine's allocation step, and the metrics table. */
  method RunBacktest(data: Matrix, n: nat, cfg: Config, num: Numerics) returns (r: Result<BacktestResult, string>)
    requires Runnable(data, n, cfg) && ValidNumerics(num)
    ensures r == BacktestRun(data, n, cfg, num)
  {
    if |data| <= cfg.window {
      return Failure(NotEnoughData);
    }
    var final := RunDays(data, n, cfg, AllocationRule(n, cfg, num));
    if final.Failure? {
      return Failure(final.error);
    }
    SimulateTracked(data, n, cfg, AllocationRule(n, cfg, num), |data|);
    var res := ReportRun(final.value, n, |data| - cfg.window, cfg.targetVol, num);
    r := Success(res);
  }

  /** The end of `run_backtest`: the metrics table, and the result built from the final dictionaries. */
  method ReportRun(st: State, n: nat, days: nat, targetVol: real, num: Numerics) returns (res: BacktestResult)
    requires Tracked(st, n, days) && 0 < days && ValidNumerics(num)
    ensures res == Report(st, n, days, targetVol, num)
  {
    var metricsRows := MetricsTable(st.rets, st.turnover, targetVol, num);
    res := BacktestResult(st.rets, st.weights, st.turnover, metricsRows);
  }

  // ================================================================
  // What a run reports.
  // ================================================================

  /** The conditions under which `run_backtest` is defined here, and a run that succeeded. */
  ghost predicate Completed(data: Matrix, n: nat, cfg: Config, num: Numerics)
  {
    Runnable(data, n, cfg) && ValidNumerics(num) && BacktestRun(data, n, cfg, num).Success?
  }

  /** A successful run reports the engine's dictionaries after the last day. */
  lemma BacktestState(data: Matrix, n: nat, cfg: Config, num: Numerics)
    requires Completed(data, n, cfg, num)
    ensures cfg.window < |data|
    ensures SimulateUpTo(data, n, cfg, AllocationRule(n, cfg, num), |data|).Success?
    ensures var st := SimulateUpTo(data, n, cfg, AllocationRule(n, cfg, num), |data|).value;
      var res := BacktestRun(data, n, cfg, num).value;
      res.portfolioReturns == st.rets && res.weights == st.weights && res.turnover == st.turnover
  {
  }

  /** Column `t` of a run's result at day `d` (row `d - window` of the
      history) keeps the previous row when the day is not a rebalancing day,
      and its turnover and net return are the ones charged against the previous row. */
  ghost predicate DayTraded(res: BacktestResult, data: Matrix, n: nat, cfg: Config, d: nat, t: nat)
  {
    && cfg.window <= d < |data|
    && t < |res.weights| && t < |res.turnover| && t < |res.portfolioReturns|
    && var j := d - cfg.window;
    && j < |res.weights[t]| && j < |res.turnover[t]| && j < |res.portfolioReturns[t]|
    && var rebalance := IsRebalanceDay(cfg, d);
    && var prev := if j == 0 then Zeros(n) else res.weights[t][j - 1];
    && |res.weights[t][j]| == n && |prev| == n && |data[d]| == n
    && (!rebalance ==> res.weights[t][j] == prev)
    && res.turnover[t][j] == Turnover(res.weights[t][j], prev, rebalance)
    && res.portfolioReturns[t][j] == DayReturn(res.weights[t][j], prev, data[d], rebalance, TransactionCost(cfg))
  }

  /** `DayTraded`, and on a rebalancing day the weights are what the rebalancing
      step `targets` decided. */
  ghost predicate DayRecorded(res: BacktestResult, data: Matrix, n: nat, cfg: Config, d: nat, t: nat,
                              targets: Result<seq<Vector>, string>)
  {
    && DayTraded(res, data, n, cfg, d, t)
    && (IsRebalanceDay(cfg, d) ==>
          targets.Success? && t < |targets.value| && res.weights[t][d - cfg.window] == targets.value[t])
  }

  /** Row `d - window` of a successful run, in the column of strategy `t`: on a
      rebalancing day the weights are the allocation step's answer for the
      trailing window, on any other day the previous row (zero before the first
      row); the turnover is their L1 distance on a rebalancing day and zero
      otherwise; the return is today's asset returns weighted, net of the cost. */
  lemma BacktestDay(data: Matrix, n: nat, cfg: Config, num: Numerics, d: nat, t: nat)
    requires Completed(data, n, cfg, num) && cfg.window <= d < |data| && t < NumStrategies
    ensures DayTraded(BacktestRun(data, n, cfg, num).value, data, n, cfg, d, t)
    ensures IsRebalanceDay(cfg, d) ==>
      DayRecorded(BacktestRun(data, n, cfg, num).value, data, n, cfg, d, t, TargetWeights(Window(data, n, cfg, d), n, cfg, num))
  {
    var rule := AllocationRule(n, cfg, num);
    BacktestState(data, n, cfg, num);
    RecordedDay(data, n, cfg, rule, |data|, d, t);
    var before := SimulateUpTo(data, n, cfg, rule, d).value;
    assert |before.prev[t]| == n;
    if IsRebalanceDay(cfg, d) {
      assert rule(Window(data, n, cfg, d)) == TargetWeights(Window(data, n, cfg, d), n, cfg, num);
    }
  }

  /** `BacktestDay` without the rebalancing step's answer. */
  lemma BacktestTraded(data: Matrix, n: nat, cfg: Config, num: Numerics, d: nat, t: nat)
    requires Completed(data, n, cfg, num) && cfg.window <= d < |data| && t < NumStrategies
    ensures DayTraded(BacktestRun(data, n, cfg, num).value, data, n, cfg, d, t)
  {
    BacktestDay(data, n, cfg, num, d, t);
  }

  /** A run with more days than the window fails exactly when the covariance
      estimator is unknown and the first rebalancing day falls inside the data,
      and the error then names the estimator. */
  lemma BacktestFailure(data: Matrix, n: nat, cfg: Config, num: Numerics)
    requires Runnable(data, n, cfg) && ValidNumerics(num) && cfg.window < |data|
    ensures BacktestRun(data, n, cfg, num).Failure? <==> !KnownEstimator(cfg.covMethod) && FirstRebalance(cfg) < |data|
    ensures BacktestRun(data, n, cfg, num).Failure? ==>
      BacktestRun(data, n, cfg, num).error == "Unknown covariance estimator: " + Lower(cfg.covMethod)
  {
    AllocationOutcome(data, n, cfg, num);
  }

  /** `BacktestFailure` for the engine's loop with the allocation step. */
  lemma AllocationOutcome(data: Matrix, n: nat, cfg: Config, num: Numerics)
    requires Runnable(data, n, cfg) && ValidNumerics(num) && cfg.window < |data|
    ensures var final := SimulateUpTo(data, n, cfg, AllocationRule(n, cfg, num), |data|);
      && (final.Failure? <==> !KnownEstimator(cfg.covMethod) && FirstRebalance(cfg) < |data|)
      && (final.Failure? ==> final.error == "Unknown covariance estimator: " + Lower(cfg.covMethod))
  {
    var rule := AllocationRule(n, cfg, num);
    var fails := !KnownEstimator(cfg.covMethod);
    var msg := "Unknown covariance estimator: " + Lower(cfg.covMethod);
    if FirstRebalance(cfg) < |data| {
      forall w | IsTable(w, n) && |w| == cfg.window
        ensures rule(w).Failure? <==> fails
        ensures rule(w).Failure? ==> rule(w).error == msg
      {
        assert rule(w) == TargetWeights(w, n, cfg, num);
      }
    }
    SimulateOutcome(data, n, cfg, rule, |data|, fails, msg);
  }

  /** Every day of the run, in every strategy's column, is `DayTraded`. */
  ghost predicate TradedRun(res: BacktestResult, data: Matrix, n: nat, cfg: Config)
  {
    forall d, t :: cfg.window <= d < |data| && 0 <= t < NumStrategies ==> DayTraded(res, data, n, cfg, d, t)
  }

  lemma BacktestTradedRun(data: Matrix, n: nat, cfg: Config, num: Numerics)
    requires Completed(data, n, cfg, num)
    ensures TradedRun(BacktestRun(data, n, cfg, num).value, data, n, cfg)
  {
    forall d, t | cfg.window <= d < |data| && 0 <= t < NumStrategies
      ensures DayTraded(BacktestRun(data, n, cfg, num).value, data, n, cfg, d, t)
    {
      BacktestTraded(data, n, cfg, num, d, t);
    }
  }

  /** Before the first rebalancing day every strategy holds cash: zero weights,
      no turnover and a zero return. */
  lemma IdleBeforeFirstRebalance(data: Matrix, n: nat, cfg: Config, num: Numerics, d: nat, t: nat)
    requires Completed(data, n, cfg, num) && cfg.window <= d < |data| && d < FirstRebalance(cfg) && t < NumStrategies
    ensures var res := BacktestRun(data, n, cfg, num).value;
      var j := d - cfg.window;
      res.weights[t][j] == Zeros(n) && res.turnover[t][j] == 0.0 && res.portfolioReturns[t][j] == 0.0
  {
    BacktestTradedRun(data, n, cfg, num);
    HeldCash(BacktestRun(data, n, cfg, num).value, data, n, cfg, d, t);
  }

  /** The induction behind `IdleBeforeFirstRebalance`, over any traded run. */
  lemma {:induction false} HeldCash(res: BacktestResult, data: Matrix, n: nat, cfg: Config, d: nat, t: nat)
    requires TradedRun(res, data, n, cfg) && cfg.window <= d < |data| && d < FirstRebalance(cfg) && t < NumStrategies
    ensures var j := d - cfg.window;
      && t < |res.weights| && t < |res.turnover| && t < |res.portfolioReturns|
      && j < |res.weights[t]| && j < |res.turnover[t]| && j < |res.portfolioReturns[t]|
      && res.weights[t][j] == Zeros(n) && res.turnover[t][j] == 0.0 && res.portfolioReturns[t][j] == 0.0
    decreases d
  {
    assert DayTraded(res, data, n, cfg, d, t);
    if d > cfg.window {
      HeldCash(res, data, n, cfg, d - 1, t);
    }
    DotZerosLeft(data[d]);
  }

  /** From the first rebalancing day on, each strategy holds the targets that the
      allocation step computed on the last rebalancing day. */
  lemma HeldSinceRebalance(data: Matrix, n: nat, cfg: Config, num: Numerics, d: nat, t: nat)
    requires Completed(data, n, cfg, num) && FirstRebalance(cfg) <= d < |data| && t < NumStrategies
    ensures var r := LastRebalance(cfg, d + 1);
      && IsRebalanceDay(cfg, r) && cfg.window <= r <= d
      && TargetWeights(Window(data, n, cfg, r), n, cfg, num).Success?
      && BacktestRun(data, n, cfg, num).value.weights[t][d - cfg.window] == TargetWeights(Window(data, n, cfg, r), n, cfg, num).value[t]
  {
    BacktestRecordedRun(data, n, cfg, num);
    RecordedTargets(BacktestRun(data, n, cfg, num).value, data, n, cfg, num, d, t);
  }

  /** `HeldSinceRebalance` for any tables recorded from the engine's allocation step. */
  lemma RecordedTargets(res: BacktestResult, data: Matrix, n: nat, cfg: Config, num: Numerics, d: nat, t: nat)
    requires ValidNumerics(num) && FirstRebalance(cfg) <= d < |data| && t < NumStrategies
    requires RecordedRun(res, data, n, cfg, AllocationRule(n, cfg, num))
    ensures var r := LastRebalance(cfg, d + 1);
      && IsRebalanceDay(cfg, r) && cfg.window <= r <= d
      && TargetWeights(Window(data, n, cfg, r), n, cfg, num).Success?
      && t < |res.weights| && d - cfg.window < |res.weights[t]|
      && res.weights[t][d - cfg.window] == TargetWeights(Window(data, n, cfg, r), n, cfg, num).value[t]
  {
    var rule := AllocationRule(n, cfg, num);
    HeldTargets(res, data, n, cfg, rule, d, t);
    var recent := Window(data, n, cfg, LastRebalance(cfg, d + 1));
    assert rule(recent) == TargetWeights(recent, n, cfg, num);
  }

  /** The induction behind `HeldSinceRebalance`, over any tables whose days up to
      `d` were recorded from the answers of `rule`. */
  lemma {:induction false} HeldTargets(res: BacktestResult, data: Matrix, n: nat, cfg: Config, rule: Rule, d: nat, t: nat)
    requires FirstRebalance(cfg) <= d < |data| && t < NumStrategies && RecordedRun(res, data, n, cfg, rule)
    ensures var r := LastRebalance(cfg, d + 1);
      && IsRebalanceDay(cfg, r) && cfg.window <= r <= d
      && rule(Window(data, n, cfg, r)).Success?
      && t < |res.weights| && d - cfg.window < |res.weights[t]| && t < |rule(Window(data, n, cfg, r)).value|
      && res.weights[t][d - cfg.window] == rule(Window(data, n, cfg, r)).value[t]
    decreases d
  {
    LastRebalanceIsRebalanceDay(cfg, d);
    ScheduleStep(cfg, d);
    assert DayRecorded(res, data, n, cfg, d, t, rule(Window(data, n, cfg, d)));
    if !IsRebalanceDay(cfg, d) {
      HeldTargets(res, data, n, cfg, rule, d - 1, t);
    }
  }

  /** Row `j` of a table of histories, one entry per strategy. */
  function WeightRow(w: seq<Matrix>, j: nat): (row: seq<Vector>)
    requires forall t :: 0 <= t < |w| ==> j < |w[t]|
    ensures |row| == |w| && forall t :: 0 <= t < |w| ==> row[t] == w[t][j]
  {
    seq(|w|, t requires 0 <= t < |w| => w[t][j])
  }

  /** Row `j` of the weight table is, strategy by strategy, the answer of its own
      allocator (see `AllocateEntries`) on the window `recent` and the covariance
      estimated from it. */
  ghost predicate HoldsAllocations(w: seq<Matrix>, j: nat, recent: Matrix, n: nat, cfg: Config, num: Numerics)
  {
    && IsTable(recent, n) && Estimable(n, |recent|, cfg.covMethod) && ValidNumerics(num)
    && (forall t :: 0 <= t < |w| ==> j < |w[t]|)
    && var cov := GetCovariance(recent, n, cfg.covMethod, DefaultLambda, num);
    && cov.Success?
    && WeightRow(w, j) == Allocate(recent, n, cov.value, cfg, num)
  }

  /** From the first rebalancing day on, the whole weight row is what the allocation
      step computed on the trailing window of the last rebalancing day. */
  lemma HeldAllocations(data: Matrix, n: nat, cfg: Config, num: Numerics, d: nat)
    requires Completed(data, n, cfg, num) && FirstRebalance(cfg) <= d < |data|
    ensures var r := LastRebalance(cfg, d + 1);
      && cfg.window <= r <= d
      && HoldsAllocations(BacktestRun(data, n, cfg, num).value.weights, d - cfg.window, Window(data, n, cfg, r), n, cfg, num)
  {
    BacktestState(data, n, cfg, num);
    BacktestRecordedRun(data, n, cfg, num);
    RecordedAllocations(BacktestRun(data, n, cfg, num).value, data, n, cfg, num, d);
  }

  /** `HeldAllocations` for any tables recorded from the engine's allocation step. */
  lemma RecordedAllocations(res: BacktestResult, data: Matrix, n: nat, cfg: Config, num: Numerics, d: nat)
    requires ValidNumerics(num) && FirstRebalance(cfg) <= d < |data| && |res.weights| == NumStrategies
    requires RecordedRun(res, data, n, cfg, AllocationRule(n, cfg, num))
    ensures var r := LastRebalance(cfg, d + 1);
      && cfg.window <= r <= d
      && HoldsAllocations(res.weights, d - cfg.window, Window(data, n, cfg, r), n, cfg, num)
  {
    var rule := AllocationRule(n, cfg, num);
    HeldRow(res, data, n, cfg, rule, d);
    var recent := Window(data, n, cfg, LastRebalance(cfg, d + 1));
    assert rule(recent) == TargetWeights(recent, n, cfg, num);
  }

  /** The whole-row form of `HeldTargets`. */
  lemma HeldRow(res: BacktestResult, data: Matrix, n: nat, cfg: Config, rule: Rule, d: nat)
    requires Runnable(data, n, cfg) && FirstRebalance(cfg) <= d < |data| && Admissible(rule, n)
    requires |res.weights| == NumStrategies
    requires RecordedRun(res, data, n, cfg, rule)
    ensures var r := LastRebalance(cfg, d + 1);
      && IsRebalanceDay(cfg, r) && cfg.window <= r <= d
      && rule(Window(data, n, cfg, r)).Success?
      && (forall t :: 0 <= t < |res.weights| ==> d - cfg.window < |res.weights[t]|)
      && WeightRow(res.weights, d - cfg.window) == rule(Window(data, n, cfg, r)).value
  {
    var r := LastRebalance(cfg, d + 1);
    var j := d - cfg.window;
    HeldTargets(res, data, n, cfg, rule, d, 0);
    forall t | 0 <= t < NumStrategies
      ensures j < |res.weights[t]| && res.weights[t][j] == rule(Window(data, n, cfg, r)).value[t]
    {
      HeldTargets(res, data, n, cfg, rule, d, t);
    }
  }

  /** Every day of the run, in every strategy's column, is `DayRecorded` from the
      answers of `rule`. */
  ghost predicate RecordedRun(res: BacktestResult, data: Matrix, n: nat, cfg: Config, rule: Rule)
  {
    && Runnable(data, n, cfg)
    && forall e, t :: cfg.window <= e < |data| && 0 <= t < NumStrategies ==>
         DayRecorded(res, data, n, cfg, e, t, rule(Window(data, n, cfg, e)))
  }

  lemma BacktestRecordedRun(data: Matrix, n: nat, cfg: Config, num: Numerics)
    requires Completed(data, n, cfg, num)
    ensures RecordedRun(BacktestRun(data, n, cfg, num).value, data, n, cfg, AllocationRule(n, cfg, num))
  {
    var res := BacktestRun(data, n, cfg, num).value;
    var rule := AllocationRule(n, cfg, num);
    forall e, t | cfg.window <= e < |data| && 0 <= t < NumStrategies
      ensures DayRecorded(res, data, n, cfg, e, t, rule(Window(data, n, cfg, e)))
    {
      BacktestDay(data, n, cfg, num, e, t);
      if IsRebalanceDay(cfg, e) {
        assert rule(Window(data, n, cfg, e)) == TargetWeights(Window(data, n, cfg, e), n, cfg, num);
      }
    }
  }

  /** From the first rebalancing day on, every strategy but the volatility-targeted
      one is fully invested and long-only. */
  lemma HeldOnSimplex(data: Matrix, n: nat, cfg: Config, num: Numerics, d: nat, t: nat)
    requires Completed(data, n, cfg, num) && FirstRebalance(cfg) <= d < |data|
    requires t < NumStrategies && t != Index(VolTargetRule)
    ensures OnSimplex(BacktestRun(data, n, cfg, num).value.weights[t][d - cfg.window])
  {
    BacktestRecordedRun(data, n, cfg, num);
    RecordedTargets(BacktestRun(data, n, cfg, num).value, data, n, cfg, num, d, t);
  }

  /** On a recorded day the turnover is the L1 distance travelled on a rebalancing
      day and zero otherwise, and the return is the weights' gross return less the
      transaction cost on the turnover. */
  lemma DayCosts(res: BacktestResult, data: Matrix, n: nat, cfg: Config, d: nat, t: nat)
    requires DayTraded(res, data, n, cfg, d, t)
    ensures var j := d - cfg.window;
      var w := res.weights[t][j];
      var prev := if j == 0 then Zeros(n) else res.weights[t][j - 1];
      && res.turnover[t][j] == (if IsRebalanceDay(cfg, d) then L1Distance(w, prev) else 0.0)
      && res.portfolioReturns[t][j] == Dot(w, data[d]) - TransactionCost(cfg) * res.turnover[t][j]
  {
    var j := d - cfg.window;
    var turnover := res.turnover[t][j];
    if !IsRebalanceDay(cfg, d) {
      assert turnover == 0.0;
      assert TransactionCost(cfg) * turnover == 0.0;
    }
  }

  /** The turnover of a recorded day is positive exactly when the day rebalances
      into weights different from the previous ones. */
  lemma DayTurnoverPositive(res: BacktestResult, data: Matrix, n: nat, cfg: Config, d: nat, t: nat)
    requires DayTraded(res, data, n, cfg, d, t)
    ensures var j := d - cfg.window;
      var prev := if j == 0 then Zeros(n) else res.weights[t][j - 1];
      0.0 < res.turnover[t][j] <==> IsRebalanceDay(cfg, d) && res.weights[t][j] != prev
  {
    var j := d - cfg.window;
    var prev := if j == 0 then Zeros(n) else res.weights[t][j - 1];
    L1Separates(res.weights[t][j], prev);
  }

  /** With a positive cost rate, a day that trades earns strictly less than its
      weights' gross return. */
  lemma CostLowersReturn(res: BacktestResult, data: Matrix, n: nat, cfg: Config, d: nat, t: nat)
    requires DayTraded(res, data, n, cfg, d, t) && 0.0 < cfg.tcBps
    ensures var j := d - cfg.window;
      0.0 < res.turnover[t][j] ==> res.portfolioReturns[t][j] < Dot(res.weights[t][j], data[d])
  {
    DayCosts(res, data, n, cfg, d, t);
    var j := d - cfg.window;
    if 0.0 < res.turnover[t][j] {
      MulPositive(TransactionCost(cfg), res.turnover[t][j]);
    }
  }

  /** On the first rebalancing day every fully invested strategy trades out of cash
      into its whole allocation, so its turnover is its weights' sum: one, within the
      simplex tolerance. */
  lemma FirstRebalanceTurnover(data: Matrix, n: nat, cfg: Config, num: Numerics, t: nat)
    requires Completed(data, n, cfg, num) && FirstRebalance(cfg) < |data|
    requires t < NumStrategies && t != Index(VolTargetRule)
    ensures var res := BacktestRun(data, n, cfg, num).value;
      var j := FirstRebalance(cfg) - cfg.window;
      && res.turnover[t][j] == Sum(res.weights[t][j])
      && Abs(res.turnover[t][j] - 1.0) < SimplexTol
  {
    BacktestRecordedRun(data, n, cfg, num);
    RecordedFirstTurnover(BacktestRun(data, n, cfg, num).value, data, n, cfg, num, t);
  }

  /** `FirstRebalanceTurnover` for any tables recorded from the engine's allocation step. */
  lemma RecordedFirstTurnover(res: BacktestResult, data: Matrix, n: nat, cfg: Config, num: Numerics, t: nat)
    requires ValidNumerics(num) && FirstRebalance(cfg) < |data|
    requires t < NumStrategies && t != Index(VolTargetRule)
    requires RecordedRun(res, data, n, cfg, AllocationRule(n, cfg, num))
    ensures var j := FirstRebalance(cfg) - cfg.window;
      && t < |res.turnover| && j < |res.turnover[t]| && t < |res.weights| && j < |res.weights[t]|
      && res.turnover[t][j] == Sum(res.weights[t][j])
      && Abs(res.turnover[t][j] - 1.0) < SimplexTol
  {
    RecordedTargets(res, data, n, cfg, num, FirstRebalance(cfg), t);
    RecordedTraded(res, data, n, cfg, AllocationRule(n, cfg, num));
    EntryTurnover(res, data, n, cfg, t);
  }

  lemma RecordedTraded(res: BacktestResult, data: Matrix, n: nat, cfg: Config, rule: Rule)
    requires RecordedRun(res, data, n, cfg, rule)
    ensures TradedRun(res, data, n, cfg)
  {
    forall d, t | cfg.window <= d < |data| && 0 <= t < NumStrategies
      ensures DayTraded(res, data, n, cfg, d, t)
    {
      assert DayRecorded(res, data, n, cfg, d, t, rule(Window(data, n, cfg, d)));
    }
  }

  /** The equal-weight strategy's first rebalance trades exactly one unit. */
  lemma EqualWeightFirstTurnover(data: Matrix, n: nat, cfg: Config, num: Numerics)
    requires Completed(data, n, cfg, num) && FirstRebalance(cfg) < |data|
    ensures BacktestRun(data, n, cfg, num).value.turnover[Index(EqualWeightRule)][FirstRebalance(cfg) - cfg.window] == 1.0
  {
    BacktestFailure(data, n, cfg, num);
    assert n >= 1;
    FirstRebalanceTurnover(data, n, cfg, num, Index(EqualWeightRule));
    HeldEqualWeight(data, n, cfg, num, FirstRebalance(cfg));
  }

  /** From the first rebalancing day on, the equal-weight strategy holds `1 / n` of each asset. */
  lemma HeldEqualWeight(data: Matrix, n: nat, cfg: Config, num: Numerics, d: nat)
    requires Completed(data, n, cfg, num) && FirstRebalance(cfg) <= d < |data|
    ensures BacktestRun(data, n, cfg, num).value.weights[Index(EqualWeightRule)][d - cfg.window] == EqualWeight(n)
  {
    BacktestRecordedRun(data, n, cfg, num);
    RecordedTargets(BacktestRun(data, n, cfg, num).value, data, n, cfg, num, d, Index(EqualWeightRule));
    TargetEqualWeight(Window(data, n, cfg, LastRebalance(cfg, d + 1)), n, cfg, num);
  }

  /** Whenever the allocation step succeeds, its equal-weight target is `1 / n` in each asset. */
  lemma TargetEqualWeight(recent: Matrix, n: nat, cfg: Config, num: Numerics)
    requires IsTable(recent, n) && Estimable(n, |recent|, cfg.covMethod) && ValidNumerics(num)
    requires TargetWeights(recent, n, cfg, num).Success?
    ensures TargetWeights(recent, n, cfg, num).value[Index(EqualWeightRule)] == EqualWeight(n)
  {
    var cov := GetCovariance(recent, n, cfg.covMethod, DefaultLambda, num);
    AllocateEntries(recent, n, cov.value, cfg, num);
  }

  /** Rebalancing out of cash into long-only weights trades their whole sum. */
  lemma EntryTurnover(res: BacktestResult, data: Matrix, n: nat, cfg: Config, t: nat)
    requires TradedRun(res, data, n, cfg) && FirstRebalance(cfg) < |data| && t < NumStrategies
    requires var j := FirstRebalance(cfg) - cfg.window; t < |res.weights| && j < |res.weights[t]| && OnSimplex(res.weights[t][j])
    ensures var j := FirstRebalance(cfg) - cfg.window;
      && t < |res.turnover| && j < |res.turnover[t]|
      && res.turnover[t][j] == Sum(res.weights[t][j]) && Abs(res.turnover[t][j] - 1.0) < SimplexTol
  {
    var d := FirstRebalance(cfg);
    assert DayTraded(res, data, n, cfg, d, t);
    if d > cfg.window {
      HeldCash(res, data, n, cfg, d - 1, t);
    }
    L1FromZeros(res.weights[t][d - cfg.window]);
  }
}
