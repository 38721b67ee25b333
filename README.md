# Rolling-window portfolio backtest, modelled in Dafny

The project models a rolling-window backtest engine for long-only portfolios of five strategies:

- equal weight;
- minimum variance;
- mean-variance;
- risk parity;
- volatility-targeted equal weight.

The engine works day by day, for every day after a trailing window of `window` days. It:

- decides whether the day is a rebalancing day, from a calendar step (weekly 5, monthly 21, quarterly 63 trading days);
- on a rebalancing day, estimates the covariance of the trailing window (sample, EWMA or shrinkage, named case-insensitively) and computes each strategy's target weights;
- on any other day, carries the previous weights forward;
- charges each strategy the L1 turnover times a linear transaction cost, and books its net return;
- appends one row to every strategy's weight, turnover and return histories.

Finally it computes eleven performance metrics per strategy:

- CAGR, volatility, and the Sharpe, Sortino and Calmar ratios;
- maximum drawdown and average turnover;
- realised volatility and its distance to the target;
- 95% VaR and CVaR.

All numbers are Dafny `real`s. Some numerical primitives are not modelled:

- the square root;
- the fractional power in the CAGR;
- the symmetric eigendecomposition;
- SciPy's SLSQP solver.

A run takes these as function values bundled in `Numerics.Numerics`. Only the facts in `Numerics.ValidNumerics` are assumed about them:

- the square root of zero is zero, of a non-negative number non-negative, and of a positive number positive;
- the decomposition has the right shape;
- the solver answers with a vector of the right length.

Everything else is computed exactly. This includes:

- the sort-and-threshold Euclidean projection onto the simplex;
- `np.percentile`'s linear interpolation;
- the EWMA recursion;
- the shrinkage combination;
- the eigenvalue clipping of `ensure_psd`.

Modules:

- `Wrappers`: `Option` and `Result`.
- `Vectors`: sums, dot products, L1 distance, the simplex, matrix-vector products and the quadratic form.
- `Matrices`: matrix sums, scalings and outer products, and linearity of the quadratic form.
- `Sorting`: `np.sort` and `[::-1]`.
- `Numerics`: the primitives above, plus `np.var` and `np.std`.
- `Covariance`: the three estimators, `ensure_psd` and `get_covariance`.
- `Allocations`: the projection, equal weight, the solver wrapper with its two objectives, the risk-parity loop and the volatility-targeting overlay.
- `Metrics`: drawdown, annualisation, the guarded ratios, percentile and CVaR, and the metrics record.
- `Backtest`: the schedule, the per-day state machine, the result tables and the properties of a whole run.

The engine's loops are imperative methods, each proved equal to a specification function:

- `RunDays` is the loop over the days and computes `SimulateUpTo`.
- `RecordStrategies` is the inner loop over the strategies and computes `RecordDay`.
- `MetricsTable` is the loop building the metrics table and computes `MetricsRows`.
- `RiskParityWeights` / `RiskParityLoop` are the bounded risk-parity loop with its two exits and compute `RiskParity`. The loop itself is `PassLoop`, a `for` loop over `range(max_iter)` that leaves at the first `break`. It runs the loop body `RiskParityPass` as a closure (`PassOf`), and `RiskParityFrom` is the iteration `Iterated` of that closure.
- `EwmaCovariance` is the loop over the window's rows and computes `EwmaFold` then `EnsurePsd`.

`RunBacktest` is the whole of `run_backtest` and is proved to compute `BacktestRun`. Properties of a run are stated about `BacktestRun`. The engine's dictionaries keyed by strategy name are sequences indexed by the strategy's position in `Strategies`. `StrategiesListed` shows that positions and names correspond one to one.

Two behaviours of the code that are easy to miss:

- The sample estimator (`src/strategies/backtest.py:26`) is returned as `returns.cov()` without passing through `ensure_psd`. Only the EWMA and shrinkage estimators are clipped. The sample matrix is still positive semidefinite (`Covariance.SamplePositiveSemidefinite`), so every estimator `get_covariance` answers with is (`Covariance.GetCovariancePositiveSemidefinite`).
- An unknown covariance estimator raises only when a rebalancing day actually occurs. The first rebalancing day is `max(window, step)`, so a run shorter than that succeeds whatever the estimator's name (`Backtest.BacktestFailure`).

## Model

| member | source | states |
|---|---|---|
| Backtest.StrategiesListed | src/strategies/backtest.py:57 | The five strategies are listed once each in a fixed order under five distinct names, and `Index` is the inverse of that listing. |
| Backtest.RebalanceStepLookup | src/strategies/backtest.py:12-37 | The three named frequencies step by 5, 21 and 63 days. Every other name steps like `monthly`, by 21 days. |
| Backtest.DefaultSchedule | src/strategies/backtest.py:41-49 | Under `run_backtest`'s defaults (a 252-day window, monthly rebalancing, 5 bps, shrinkage) the first rebalance is day 252 and the next ones follow every 21 days. The estimator is known, and a unit of turnover costs 0.0005. |
| Backtest.ShouldRebalance | src/strategies/backtest.py:34-38 | `should_rebalance` holds exactly when the step for `freq` in `REB_FREQ` has elapsed since `last_reb`, with the monthly step for an unknown `freq`. So it never holds before 5 days and always holds after 63. |
| Backtest.ScheduleStep | src/strategies/backtest.py:34-38 | Given the last rebalance index the engine keeps, `should_rebalance` holds on day `d` exactly when `d` is `max(window, step)` plus a multiple of the step. The index kept afterwards is `d` on such a day and unchanged otherwise. |
| Backtest.LastRebalanceIsRebalanceDay | src/strategies/backtest.py:63-89 | From the first rebalancing day on, the last rebalance index up to day `d` is a rebalancing day between the first one and `d`. |
| Backtest.RebalanceSpacing | src/strategies/backtest.py:34-38 | After a rebalancing day, the next one comes exactly one step later and no rebalancing day lies in between. |
| Backtest.InitialState | src/strategies/backtest.py:58-63 | Before the first day every strategy holds zero weights with empty histories, and the last rebalance index is 0. |
| Backtest.TransactionCost | src/strategies/backtest.py:55 | `tc` is `tc_bps` in units of 1/10000, and it is non-negative for non-negative `tc_bps`. |
| Backtest.Cost | src/strategies/backtest.py:95 | The cost is zero on a day without a rebalance, or when `tc` or the turnover is zero. With non-negative `tc` and turnover it lies between 0 and `tc * turnover`. |
| Backtest.DayReturn | src/strategies/backtest.py:94-96 | The net return is the gross `new_weights . todays_ret` on a day without a rebalance. On a rebalancing day it is the gross return minus `tc` times the L1 distance to the previous weights. It never exceeds the gross return for `tc >= 0`, and equals it when the weights do not change. |
| Backtest.Turnover | src/strategies/backtest.py:94 | The turnover of a day is never negative. |
| Backtest.RecordDay | src/strategies/backtest.py:93-102 | One pass over the strategies appends to each strategy's own histories exactly its target, its turnover against its previous weights and its net return. The targets become the current weights, and the last rebalance index is untouched. |
| Backtest.RecordDayTracked | src/strategies/backtest.py:98-102 | After a day every history is one row longer, and the current weights are the last weight row recorded. |
| Backtest.RecordStrategies | src/strategies/backtest.py:93-102 | The imperative loop over the strategies produces exactly the dictionaries `RecordDay` specifies. |
| Backtest.Allocate | src/strategies/backtest.py:74-88 | For a given covariance, a rebalancing day's targets are one n-vector per strategy, and every strategy except the volatility-targeted one is on the simplex. |
| Backtest.AllocateEntries | src/strategies/backtest.py:74-88 | The five targets come from equal weight, minimum variance, mean-variance on the window's column means with `gamma`, risk parity (500 iterations, tolerance 1e-8), and volatility targeting of the equal-weight vector. |
| Backtest.TargetWeights | src/strategies/backtest.py:73-88 | On any window the step is defined on (for a known estimator: an asset, a row, and two rows for sample and shrinkage), the allocation step fails exactly when the estimator name is unknown, with the estimator's error message. Otherwise it allocates from the named estimator's covariance. |
| Backtest.RebalanceTargets | src/strategies/backtest.py:73-88 | The imperative rebalancing branch, including the risk-parity loop, answers exactly what `TargetWeights` specifies. |
| Backtest.Window | src/strategies/backtest.py:68 | The trailing window has `window` rows of `n` returns. |
| Backtest.Day | src/strategies/backtest.py:67-102 | One day fails exactly when it rebalances and the allocation step fails, and then with that step's error. Otherwise it keeps the state well formed, and the last rebalance index becomes `i` exactly on a rebalancing day. |
| Backtest.DayEffect | src/strategies/backtest.py:90-102 | A day appends, for every strategy, the new target (the allocation on a rebalancing day, the previous weights otherwise), its turnover and its net return, and makes the target current. |
| Backtest.SimulateUpTo | src/strategies/backtest.py:62-102 | The days run so far leave a state with one entry per strategy. |
| Backtest.SimulateTracked | src/strategies/backtest.py:98-104 | After the days `window .. i-1` every history has exactly `i - window` rows, and `prev_weights` equals the weights recorded for the last day. |
| Backtest.SimulateStep | src/strategies/backtest.py:66-102 | A run that reaches day `i` reached day `i-1`, and its state is that day's step applied to the earlier state. |
| Backtest.SimulateFailurePersists | src/strategies/backtest.py:31-73 | Once a day has raised, the run's outcome is that error, whatever days follow. |
| Backtest.SimulateSchedule | src/strategies/backtest.py:63-89 | The engine's `last_reb_index` after any prefix of days is always the closed-form last rebalancing day. |
| Backtest.SimulateOutcome | src/strategies/backtest.py:66-73 | Take an allocation step that fails on every window or on none, whenever a rebalancing day falls inside the data. Then a run fails exactly when it fails everywhere and the first rebalancing day has been passed, and it fails with that step's message. |
| Backtest.HistoryPrefix | src/strategies/backtest.py:98-100 | The histories only grow by appending: those after day `j` are prefixes of those after any later day `k`. |
| Backtest.RecordedDay | src/strategies/backtest.py:90-102 | The rows recorded for day `d`, read after any later day, contain the day's target (the allocation on a rebalancing day, the previous row otherwise), its turnover against the previous row (zero weights before the first row) and its net return. |
| Backtest.AllocationRule | src/strategies/backtest.py:73-88 | The engine's allocation step answers, on every window `TargetWeights` is defined on, what `TargetWeights` specifies. Every answer has `n` weights per strategy. Because a function value must answer every table, other tables get `Failure(NotEnoughData)`. The engine never applies the rule to those. |
| Backtest.MetricsRows | src/strategies/backtest.py:109-112 | The metrics table has one row per strategy, computed from that strategy's own return and turnover columns. |
| Backtest.Report | src/strategies/backtest.py:104-113 | The result holds the final return, weight and turnover histories unchanged, with `days` rows per strategy and each strategy's metrics row. |
| Backtest.BacktestRun | src/strategies/backtest.py:41-113 | With at most `window` days of data the run fails with the not-enough-data message. A run that succeeds reports five columns of `len - window` rows and one metrics row per strategy. |
| Backtest.RunDay | src/strategies/backtest.py:67-102 | The imperative body of the day loop computes exactly `Day`. |
| Backtest.RunDays | src/strategies/backtest.py:62-102 | The imperative day loop, started from zero weights and empty histories and stopped by the first error, computes exactly `SimulateUpTo` over all days. |
| Backtest.MetricsTable | src/strategies/backtest.py:109-112 | The loop over the strategies builds exactly the metrics table `MetricsRows`. |
| Backtest.RunBacktest | src/strategies/backtest.py:41-113 | The imperative `run_backtest` (length check, day loop, result assembly) computes exactly `BacktestRun`. |
| Backtest.ReportRun | src/strategies/backtest.py:104-113 | The result assembly from the final dictionaries computes exactly `Report`. |
| Backtest.BacktestState | src/strategies/backtest.py:104-107 | A successful run reports exactly the engine's histories after the last day. |
| Backtest.BacktestDay | src/strategies/backtest.py:70-102 | In every strategy's column, every day of a successful run is as follows (the allocation exists whenever the day rebalances). The weights are the allocation of the trailing window on a rebalancing day and the previous row otherwise. The turnover is their L1 distance on a rebalancing day. The return is the weighted asset return net of the cost. |
| Backtest.BacktestTraded | src/strategies/backtest.py:90-100 | Every day of a successful run keeps the previous weights off rebalancing days and charges turnover and net return against the previous row. |
| Backtest.BacktestFailure | src/strategies/backtest.py:23-73 | A run with more days than the window fails exactly when the estimator name is unknown and the first rebalancing day falls inside the data. The error then names the lower-cased estimator. |
| Backtest.AllocationOutcome | src/strategies/backtest.py:66-73 | The same outcome, stated for the engine's day loop with its allocation step. |
| Backtest.BacktestTradedRun | src/strategies/backtest.py:90-100 | Every day and every strategy column of a successful run satisfies the bookkeeping of `BacktestTraded`. |
| Backtest.IdleBeforeFirstRebalance | src/strategies/backtest.py:62-96 | Before the first rebalancing day every strategy holds zero weights, trades nothing and earns exactly zero. |
| Backtest.HeldCash | src/strategies/backtest.py:62-96 | The induction behind the previous row, for any tables whose every day follows the bookkeeping. |
| Backtest.HeldSinceRebalance | src/strategies/backtest.py:82-91 | From the first rebalancing day on, each strategy holds the target that the allocation step computed on the most recent rebalancing day's window. |
| Backtest.RecordedTargets | src/strategies/backtest.py:82-91 | The same, for any tables recorded from the engine's allocation step. |
| Backtest.HeldTargets | src/strategies/backtest.py:82-91 | The induction over days behind the same statement, for any allocation step. |
| Backtest.HeldAllocations | src/strategies/backtest.py:73-91 | From the first rebalancing day on, the whole weight row of every day is the allocation, under the named estimator's covariance, of the most recent rebalancing day's window. |
| Backtest.RecordedAllocations | src/strategies/backtest.py:73-91 | The same, for any tables recorded from the engine's allocation step. |
| Backtest.HeldRow | src/strategies/backtest.py:82-91 | The whole-row form of the held-target induction, for any allocation step. |
| Backtest.BacktestRecordedRun | src/strategies/backtest.py:70-102 | Every day and every strategy column of a successful run is recorded from the engine's allocation step on that day's window. |
| Backtest.HeldOnSimplex | src/strategies/backtest.py:75-91 | From the first rebalancing day on, every strategy except the volatility-targeted one holds long-only weights summing to one within 1e-8. |
| Backtest.DayCosts | src/strategies/backtest.py:55-96 | A recorded day's turnover is the L1 distance to the previous weights on a rebalancing day and zero otherwise. Its return is the gross weighted return minus `tc_bps / 10000` times the turnover. |
| Backtest.DayTurnoverPositive | src/strategies/backtest.py:94 | A day's turnover is positive exactly when it is a rebalancing day and the new weights differ from the previous ones. |
| Backtest.CostLowersReturn | src/strategies/backtest.py:55-96 | With a positive cost rate, a day with positive turnover earns strictly less than its gross weighted return. |
| Backtest.FirstRebalanceTurnover | src/strategies/backtest.py:62-94 | On the first rebalancing day every fully invested strategy trades out of zero weights, so its turnover is its weights' sum, within 1e-8 of one. |
| Backtest.RecordedFirstTurnover | src/strategies/backtest.py:62-94 | The same, for any tables recorded from the engine's allocation step. |
| Backtest.EntryTurnover | src/strategies/backtest.py:62-94 | In any tables following the bookkeeping, moving out of zero weights into simplex weights trades their sum. |
| Backtest.RecordedTraded | src/strategies/backtest.py:90-100 | Tables recorded from an allocation step also follow the plain bookkeeping on every day. |
| Backtest.EqualWeightFirstTurnover | src/strategies/backtest.py:75-94 | The equal-weight strategy's first rebalance has a turnover of exactly one. |
| Backtest.HeldEqualWeight | src/strategies/backtest.py:75-91 | From the first rebalancing day on, the equal-weight strategy holds `1/n` of every asset. |
| Backtest.TargetEqualWeight | src/strategies/backtest.py:75-83 | Whenever the allocation step succeeds, its equal-weight target is `1/n` in every asset. |
| Covariance.GramFacts | src/strategies/covariance.py:8 | Dot products of the centred columns are symmetric, and the diagonal ones are non-negative. |
| Covariance.SampleCovariance | src/strategies/covariance.py:7-8 | `returns.cov()` is a symmetric n-by-n matrix with non-negative variances, whose entry `(j, k)` is the sum of products of the centred columns `j` and `k` divided by `T - 1`. |
| Covariance.SampleTimes | src/strategies/covariance.py:7-8 | `S @ x` is the vector of dot products of `y = sum_j x[j] * d_j` (the centred columns combined by `x`) with each centred column, divided by `T - 1`. |
| Covariance.SamplePositiveSemidefinite | src/strategies/covariance.py:7-8 | The sample matrix of at least two rows is positive semidefinite: `x @ S @ x` is `y . y / (T - 1)`, never negative. |
| Covariance.EwmaStep | src/strategies/covariance.py:16 | One EWMA update of an n-by-n matrix stays n-by-n and keeps symmetry. |
| Covariance.EwmaStepSymmetric | src/strategies/covariance.py:16 | The sum `lam * C + (1 - lam) * r r^T` of a symmetric `C` is symmetric. |
| Covariance.EwmaFold | src/strategies/covariance.py:14-16 | The EWMA fold from the zero matrix is a symmetric n-by-n matrix. |
| Covariance.EwmaFoldAppend | src/strategies/covariance.py:15-16 | The fold is a left fold: one more row is one more update applied, in row order. |
| Covariance.EwmaFoldPrefix | src/strategies/covariance.py:15-16 | The iterate after row `t` is the update of the iterate before it with row `t`. |
| Covariance.EwmaStepDiagonal | src/strategies/covariance.py:16 | With `0 <= lam <= 1`, one update keeps a non-negative variance non-negative. |
| Covariance.EwmaDiagonalNonNegative | src/strategies/covariance.py:14-16 | With `0 <= lam <= 1`, every EWMA variance is non-negative. |
| Covariance.EwmaStepQuadratic | src/strategies/covariance.py:16 | With `0 <= lam <= 1`, one update keeps each `x @ C @ x` non-negative. |
| Covariance.EwmaPositiveSemidefinite | src/strategies/covariance.py:14-16 | With `0 <= lam <= 1`, the EWMA matrix is positive semidefinite before clipping. |
| Covariance.EwmaCovariance | src/strategies/covariance.py:11-17 | The imperative loop over the rows, then `ensure_psd`, computes the clipped fold, a symmetric n-by-n matrix. |
| Covariance.Symmetrize | src/strategies/covariance.py:34 | `0.5 * (M + M.T)` is symmetric, and it leaves a symmetric matrix unchanged. |
| Covariance.SymmetrizeSymmetric | src/strategies/covariance.py:34 | A matrix whose entries are the averages of a symmetric matrix's mirrored entries is that matrix. |
| Covariance.Clip | src/strategies/covariance.py:36 | Clipped eigenvalues are at least epsilon, and those already at least epsilon are kept. |
| Covariance.Reconstruct | src/strategies/covariance.py:37 | `V @ diag(c) @ V.T` is symmetric n-by-n. |
| Covariance.MatVecTail | src/strategies/covariance.py:37 | Dropping the first eigenvector drops the first entry of `V.T @ x`. |
| Covariance.ReconstructQuadratic | src/strategies/covariance.py:37 | `x @ V diag(c) V.T @ x` is the sum of each `c[k]` times the squared projection of `x` on eigenvector `k`. |
| Covariance.WeightedSquaresCons | src/strategies/covariance.py:37 | The weighted sum of squares peels off its first term. |
| Covariance.WeightedSquaresAtLeast | src/strategies/covariance.py:36-37 | Weights of at least epsilon give at least epsilon times the plain sum of squares. |
| Covariance.EnsurePsd | src/strategies/covariance.py:33-38 | `ensure_psd` answers a symmetric n-by-n matrix. |
| Covariance.EnsurePsdBound | src/strategies/covariance.py:33-38 | `x @ ensure_psd(M) @ x` is at least 1e-6 times the squared length of `V.T @ x`, so the result is positive semidefinite whatever the decomposition answers. |
| Covariance.ClippedReconstructionBound | src/strategies/covariance.py:36-37 | The same bound for any eigenvector table and eigenvalues clipped at epsilon. |
| Covariance.EnsurePsdEigenvaluesAtLeastEpsilon | src/strategies/covariance.py:33-38 | When the decomposition's eigenvectors are orthonormal, `x @ ensure_psd(M) @ x >= 1e-6 * |x|^2`: every eigenvalue of the result is at least 1e-6. |
| Covariance.DiagonalPrior | src/strategies/covariance.py:27 | `np.diag(np.diag(S))` keeps the diagonal and zeroes the rest. |
| Covariance.Shrink | src/strategies/covariance.py:29 | The convex combination of two n-by-n matrices is n-by-n. |
| Covariance.ShrinkTowardDiagonal | src/strategies/covariance.py:25-29 | Toward the diagonal prior, the variances stay the sample's and every covariance is scaled by `1 - shrinkage`, so shrinkage 0 gives back the sample matrix. |
| Covariance.ShrinkageCovariance | src/strategies/covariance.py:20-30 | `shrinkage_covariance`, toward the given prior or the default diagonal one, is a symmetric n-by-n matrix. |
| Covariance.Lower | src/strategies/backtest.py:24 | Lower-casing keeps the length and maps each character on its own. |
| Covariance.LowerIdempotent | src/strategies/backtest.py:24 | Lower-casing twice is lower-casing once. |
| Covariance.GetCovariance | src/strategies/backtest.py:23-31 | On any number of rows for EWMA or an unknown name, and on two or more for sample and shrinkage, the dispatch fails exactly for names other than sample, ewma and shrinkage (in any letter case), with the message naming the lower-cased estimator. Otherwise it answers the named estimator with its defaults: a symmetric n-by-n matrix. |
| Covariance.GetCovarianceCaseInsensitive | src/strategies/backtest.py:24-31 | Names differing only in letter case select the same estimator and the same error. |
| Covariance.GetCovariancePositiveSemidefinite | src/strategies/backtest.py:25-30 | All three estimators answer positive semidefinite matrices: the sample one as it is, EWMA and shrinkage through the clipping. |
| Allocations.FirstIndexFeasible | src/strategies/allocations.py:13 | Index 0 always passes the threshold test, so a valid `rho` always exists. |
| Allocations.LastFeasible | src/strategies/allocations.py:13 | `rho` is the last index that passes the test: it passes, and no later index does. |
| Allocations.Shifted | src/strategies/allocations.py:15 | `np.maximum(w - theta, 0)`, entry by entry. |
| Allocations.ProjectToSimplex | src/strategies/allocations.py:7-16 | The projection returns a point already on the simplex (tolerance 1e-8) unchanged. Any other non-empty input lands exactly on the simplex: non-negative entries summing to one. Empty input is excluded (see Left out). |
| Allocations.ProjectionIdempotent | src/strategies/allocations.py:9-10 | Projecting twice is projecting once. |
| Allocations.ShiftedSumPermutation | src/strategies/allocations.py:11-15 | The clipped shift sums the same over any permutation, so the sort does not change it. |
| Allocations.PermutationTail | src/strategies/allocations.py:11 | The first entry of a vector sits somewhere in any permutation of it, and the remaining entries are permutations of each other. |
| Allocations.SumShiftedAbove | src/strategies/allocations.py:15 | Entries at least the threshold each lose exactly the threshold. |
| Allocations.SumShiftedBelow | src/strategies/allocations.py:15 | Entries at most the threshold are clipped to zero. |
| Allocations.ThresholdSplits | src/strategies/allocations.py:13-15 | On the sorted vector, the threshold lies strictly below the first `rho + 1` entries and at or above the rest. |
| Allocations.ProjectionSumsToOne | src/strategies/allocations.py:11-16 | Over the reals, the shifted and clipped vector sums to exactly one. |
| Allocations.SortedShiftedSumsToOne | src/strategies/allocations.py:11-16 | The same on the sorted vector. |
| Allocations.SumShiftedSplit | src/strategies/allocations.py:14-15 | A threshold that splits the sorted vector after `rho` leaves a clipped sum of one. |
| Allocations.Threshold | src/strategies/allocations.py:14 | `theta` shifts the `rho + 1` largest entries down to a total of one: `cssv[rho] - (rho + 1) * theta == 1`. |
| Allocations.EqualWeight | src/strategies/allocations.py:19-20 | Every entry is `1/n`, and for `n >= 1` the vector sums to one and lies on the simplex. |
| Allocations.ObjectiveGradient | src/strategies/allocations.py:41-54 | The gradient closures answer a vector as long as the weights. |
| Allocations.VarianceObjectiveNonNegative | src/strategies/allocations.py:38-39 | The `objective` closure of `min_variance_weights` (`ObjectiveValue` of `PortfolioVariance`) is never negative for a positive semidefinite `cov`. |
| Allocations.UtilityObjectiveBounds | src/strategies/allocations.py:50-51 | The `objective` closure of `mean_variance_weights` (`ObjectiveValue` of `MeanVarianceUtility`) is exactly `-mu @ w` when `gamma == 0`. For `gamma >= 0` and a positive semidefinite `cov` it is never below `-mu @ w`. |
| Allocations.ObjectiveExpansion | src/strategies/allocations.py:38-54 | Each gradient closure is the exact gradient of its objective closure: for a symmetric covariance, the objective at `w + h` is its value at `w`, plus the gradient at `w` dotted with `h`, plus `h @ cov @ h` (times `gamma / 2` for mean-variance). |
| Allocations.MinimizeWithConstraints | src/strategies/allocations.py:23-32 | Whatever the solver answers from equal weight, the wrapper's result lies on the simplex. A solver answer already on the simplex is returned unchanged. |
| Allocations.MinVarianceWeights | src/strategies/allocations.py:35-44 | Minimum-variance weights lie on the simplex whatever the solver does. |
| Allocations.MeanVarianceWeights | src/strategies/allocations.py:47-56 | Mean-variance weights lie on the simplex whatever the solver does. |
| Allocations.RiskContributions | src/strategies/allocations.py:66-67 | Each asset's risk contribution is its weight times its row of `cov @ w`. |
| Allocations.Deviation | src/strategies/allocations.py:68-69 | The deviation from the equal risk target has one entry per asset. |
| Allocations.RiskParityUpdate | src/strategies/allocations.py:73 | The multiplicative update answers one weight per asset. |
| Allocations.RiskParityNext | src/strategies/allocations.py:73-74 | One pass, the update then the projection, lands on the simplex. |
| Allocations.RiskParityFrom | src/strategies/allocations.py:62-74 | The iteration keeps simplex points on the simplex. It returns the current iterate when no pass is left or when a stopping test holds. |
| Allocations.RiskParityStep | src/strategies/allocations.py:62-74 | When neither stopping test holds and a pass is left, the iteration continues from the next iterate with one pass fewer. |
| Allocations.RiskParity | src/strategies/allocations.py:59-75 | `risk_parity_weights` always lies on the simplex. |
| Allocations.RiskParityLastProjectionIsIdentity | src/strategies/allocations.py:75 | Every iterate is already on the simplex, so the final projection changes nothing. |
| Allocations.RiskParityFinish | src/strategies/allocations.py:75 | Once the loop has ended, projecting its iterate gives the specified result. |
| Allocations.RiskParityWeights | src/strategies/allocations.py:59-75 | The imperative loop computes exactly `RiskParity` and lies on the simplex. It runs at most `max_iter` passes, and it stops early only when a stopping test holds. |
| Allocations.RiskParityLoop | src/strategies/allocations.py:62-74 | The `for` loop with its two `break`s: at most `max_iter` passes, an early stop only under a stopping test, simplex iterates throughout. Finishing the iteration from its result gives the same answer as from its start. |
| Allocations.RiskParityStopsIsNormTest | src/strategies/allocations.py:63-71 | The break test `RiskParityStops`, written without a square root, holds exactly when `port_var <= 0` or `np.linalg.norm(diff) < tol`, for `norm` the non-negative root of `diff @ diff`. |
| Allocations.RiskParityPass | src/strategies/allocations.py:63-74 | One pass reports a stop exactly when the variance is not positive or the deviation norm is below `tol`. Otherwise it answers the next iterate, which has one weight per asset and lies on the simplex. |
| Allocations.PassLoop | src/strategies/allocations.py:62-74 | The `for` loop over a pass with its `break`: at most `max_iter` passes, an early stop only where the pass breaks, simplex iterates throughout. Finishing the iteration from its result gives the same answer as from its start. |
| Allocations.IteratedKeepsShape | src/strategies/allocations.py:62-74 | Passes that keep the number of assets and land on the simplex keep both over any number of passes. |
| Allocations.PortfolioReturns | src/strategies/allocations.py:85 | The portfolio's return on each day of the window is that day's returns weighted. |
| Allocations.RealizedVol | src/strategies/allocations.py:86 | The annualised realised volatility is never negative. |
| Allocations.Leverage | src/strategies/allocations.py:87-88 | The leverage never exceeds `lmax`, and it is non-negative for a non-negative target and cap. |
| Allocations.LeverageOfOneDay | src/strategies/allocations.py:85-88 | On a one-day window the realised volatility is 0, so the leverage is `min(target_vol / 1e-8, lmax)`. |
| Allocations.ApplyVolTargeting | src/strategies/allocations.py:78-92 | The risky sleeve is the weights times the leverage, entry by entry. The cash is `max(0, 1 - sum(risky))`, never negative. |
| Allocations.VolTargetingOfFullyInvested | src/strategies/allocations.py:89-91 | For long-only weights summing to one and a non-negative leverage, the sleeve stays long-only and sums to the leverage, and the cash is `max(0, 1 - leverage)`. |
| Allocations.ScaleFullyInvested | src/strategies/allocations.py:89 | Scaling long-only weights summing to one by `c >= 0` gives long-only weights summing to `c`. |
| Metrics.Cumulative | src/utils/metrics.py:6 | Entry `t` of the cumulative product is the growth of one unit over days `0..t`. |
| Metrics.CumulativeStep | src/utils/metrics.py:6 | The cumulative product is a scan: each entry is the one before times the day's growth. |
| Metrics.CumulativePositive | src/utils/metrics.py:6 | With every return above -1, wealth stays positive. |
| Metrics.ProdPositive | src/utils/metrics.py:6-13 | A product of positive factors is positive. |
| Metrics.PrefixMax | src/utils/metrics.py:7 | The maximum of a non-empty prefix bounds every entry and is one of them. |
| Metrics.MinOf | src/utils/metrics.py:31 | The minimum of a non-empty series is below every entry and is one of them. |
| Metrics.RunningPeak | src/utils/metrics.py:7 | Entry `t` of `cummax` is the maximum of the entries up to `t`. |
| Metrics.RunningPeakFacts | src/utils/metrics.py:7 | The running peak never lies below the value it tracks and is always a value already seen. |
| Metrics.PeakAt | src/utils/metrics.py:7 | It names the earlier day whose value the peak on day `t` equals. |
| Metrics.RunningPeakMonotone | src/utils/metrics.py:7 | The running peak never falls. |
| Metrics.PeakStep | src/utils/metrics.py:7 | The running peak does not fall from one day to the next. |
| Metrics.Drawdown | src/utils/metrics.py:5-9 | The drawdown has one entry per day. |
| Metrics.DrawdownBounds | src/utils/metrics.py:5-9 | With every return above -1, each drawdown lies in `(-1, 0]`. |
| Metrics.MaxDrawdown | src/utils/metrics.py:30-31 | `dd.min()` is at most every day's drawdown and is the drawdown of some day. |
| Metrics.MaxDrawdownBounds | src/utils/metrics.py:30-31 | With every return above -1, the maximum drawdown lies in `(-1, 0]`. |
| Metrics.AnnualizeReturn | src/utils/metrics.py:12-17 | An empty series, or a negative frequency, annualises to 0. Otherwise the result is the total growth raised to `freq / len`, minus one. |
| Metrics.PositiveYears | src/utils/metrics.py:14-17 | `len / freq` is positive exactly for a non-empty series and a positive frequency, and its inverse is then `freq / len`. |
| Metrics.AnnualizeVol | src/utils/metrics.py:20-21 | The annualised volatility is never negative. |
| Metrics.Filter | src/utils/metrics.py:28-39 | Boolean indexing keeps only entries that satisfy the mask, and no more of them than there are entries. |
| Metrics.FilterSelects | src/utils/metrics.py:28-39 | The selection is drawn from the series, and it keeps every entry that satisfies the mask. |
| Metrics.FilterNonEmpty | src/utils/metrics.py:39 | One entry satisfying the mask makes the selection non-empty. |
| Metrics.Percentile | src/utils/metrics.py:38 | `np.percentile` with linear interpolation lies between the smallest and largest return. |
| Metrics.Interpolate | src/utils/metrics.py:38 | Interpolation at a fractional index of an ascending series lies between its ends. |
| Metrics.Lerp | src/utils/metrics.py:38 | A point part of the way between two values lies between them. |
| Metrics.PercentileAttained | src/utils/metrics.py:38-39 | Some return never exceeds the percentile. |
| Metrics.ExpectedShortfall | src/utils/metrics.py:39 | CVaR95 falls back to VaR95 when no return is at or below it, and it is never above VaR95. |
| Metrics.ShortfallTailNonEmpty | src/utils/metrics.py:38-39 | For a non-empty series the tail at or below VaR95 is never empty, so CVaR95 is the tail's mean and the fallback never fires. |
| Metrics.Row | src/utils/metrics.py:41-55 | The record becomes exactly eleven named entries, in the order CAGR, Vol, Sharpe, Sortino, MaxDrawdown, Calmar, AvgTurnover, RealizedVol, VolMinusTarget, VaR95, CVaR95. |
| Metrics.Losses | src/utils/metrics.py:28 | The downside selection holds only strictly negative returns. |
| Metrics.SharpeRatio | src/utils/metrics.py:27 | Sharpe is 0 when the volatility is not positive. Otherwise Sharpe times volatility is the CAGR. |
| Metrics.SortinoRatio | src/utils/metrics.py:28-29 | Sortino is 0 when the downside deviation is not positive. Otherwise it is the CAGR divided by the annualised downside deviation. |
| Metrics.CalmarRatio | src/utils/metrics.py:32 | Calmar is `-CAGR / max_dd` when the maximum drawdown is negative, and 0 otherwise. |
| Metrics.ComputeMetrics | src/utils/metrics.py:24-55 | Each of the eleven fields is its guarded formula: CAGR and volatility annualised with 252 days, the three guarded ratios, the maximum drawdown, mean turnover, `RealizedVol == Vol`, `VolMinusTarget == Vol - target`, VaR95 the 5th percentile, and CVaR95 the mean of the tail, never above VaR95. |
| Metrics.MetricsDrawdownNonPositive | src/utils/metrics.py:30-31 | For a series that never loses a whole unit, the reported maximum drawdown lies in `(-1, 0]`. |
| Sorting.Sort | src/strategies/allocations.py:11 | `np.sort` answers an ascending permutation of its input. |
| Sorting.Insert | src/strategies/allocations.py:11 | Inserting adds exactly the one element to the multiset. |
| Sorting.InsertAscending | src/strategies/allocations.py:11 | Inserting into an ascending vector keeps it ascending. |
| Sorting.Reverse | src/strategies/allocations.py:11 | `[::-1]` reads the vector back to front. |
| Sorting.ReversePermutes | src/strategies/allocations.py:11 | Reversing is a permutation. |
| Sorting.SortDescending | src/strategies/allocations.py:11 | `np.sort(w)[::-1]` is a descending permutation of `w`. |
| Numerics.Variance | src/utils/metrics.py:21 | The population variance is never negative. |
| Numerics.Std | src/utils/metrics.py:21 | The standard deviation is never negative. |
| Numerics.VarianceOfOne | src/strategies/allocations.py:86 | A series of one value has variance 0. |
| Matrices.QuadraticExpand | src/strategies/allocations.py:38-54 | For a symmetric `m`, `(w + h) @ m @ (w + h)` is `w @ m @ w + 2 (m @ w) . h + h @ m @ h`. |
| Vectors.L1Distance | src/strategies/backtest.py:94 | `np.abs(a - b).sum()` is never negative, and it is zero between equal vectors. |
| Vectors.L1Separates | src/strategies/backtest.py:94 | The L1 distance is zero exactly when the two weight vectors are equal. |
| Vectors.L1FromZeros | src/strategies/backtest.py:94 | The L1 distance from zero weights to long-only weights is their sum. |
| Vectors.ColumnMeans | src/strategies/backtest.py:74 | `window_rets.mean()` is the mean of each column. |

## Left out

- I/O, the data loader (download, caching, log returns), plotting and the command-line front end. None of these is part of this model.
- Dates and index labels: results are sequences indexed by day position. Strategy columns are positions in `Strategies`, whose names `StrategyName` gives.
- Floating-point rounding: every number is a `real`. The tolerances 1e-8, 1e-12 and 1e-6 are exact real constants.
- SciPy's SLSQP internals: the solver is a function value of which only the answer's length is assumed. Only the projection applied to its answer is modelled.
- `np.linalg.eigh`: a function value of which only the shape of its answer is assumed. That the eigenvectors are orthonormal is a hypothesis of `Covariance.EnsurePsdEigenvaluesAtLeastEpsilon` only.
- `np.sqrt` and the fractional power in the CAGR: function values. Only the square root's sign is assumed.
- NaN results of numpy and pandas: the model answers 0, and says so at each member. This covers the standard deviation and mean of an empty selection, a drawdown whose running peak is 0, and a risk-parity denominator of exactly zero, where numpy gives inf or NaN (that weight is kept).
- `Backtest.Runnable` asks for rows of `n` returns, and for a trailing window `Backtest.Estimable` accepts whenever a rebalancing day falls inside the data. For a known estimator that window needs at least one asset and one row, and sample and shrinkage need two rows because they divide by `T - 1`. So the model covers EWMA on a one-row window, an unknown name on any window, and every run in which no rebalancing day falls inside the data, including one with no assets. Left out are the runs `run_backtest` completes on NaNs: sample or shrinkage on fewer than two rows (NaN covariance) and a known estimator on an empty window (NaN column means). Also left out is a rebalancing day without assets with a known estimator. `run_backtest` does not get through that day: it raises, at the latest when `risk_parity_weights`' final `project_to_simplex` meets the empty vector (see `Allocations.ProjectToSimplex` below).
- Allocations.ProjectToSimplex: requires a non-empty vector. On an empty one `project_to_simplex` raises IndexError, because `np.nonzero(...)[0]` is then empty and has no last element (`src/strategies/allocations.py:13`). The model has no value there, and every caller in the model passes at least one weight.
- Metrics.AnnualizeReturn: requires `freq != 0`. At `freq = 0` `annualize_return` raises ZeroDivisionError on `len(daily_returns) / freq`, and the model has no value there. `compute_metrics` always passes 252.
- `Metrics.ComputeMetrics` requires a non-empty series because `np.percentile` raises on an empty one, and a run always supplies at least one day.
- The sample covariance is `returns.cov()` with pandas' `n - 1` divisor. Pandas' handling of missing values is not modelled.
- `str.lower` is modelled on ASCII letters only.
- `Covariance.ShrinkageCovariance` takes the prior as given. A prior that is not n-by-n is excluded by its precondition.
- Allocations.RiskParityWeights: convergence to equal risk contributions, and the tilt toward low-variance assets, are not proved. Only the bound on passes, the two stopping tests and simplex membership are proved.
- `Backtest.RunBacktest` uses the engine's allocation step as the function value `AllocationRule`, whose answer is `TargetWeights`. The imperative rebalancing branch `RebalanceTargets` is proved separately to compute the same.
- The ewma decay `lam` used by the engine is `get_covariance`'s default of 0.94. The EWMA lemmas hold for any `0 <= lam <= 1`.
