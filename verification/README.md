# Retirement-savings accrual engine in Dafny

This project models the accrual engine of a retirement-savings simulator and
proves properties of it. A program takes an input record with:

- the working years `n`, the age and the sex;
- one yearly return rate per year;
- a payment mode: a share of salary, or a fixed payment;
- optional salary and unemployment plugins;
- the initial salary and a tax-deduction rate.

A run has six stages: the salary series, the employment shocks, the
contributions, co-financing, the fee-bearing balance recurrence (ending in a
settlement period) and the first pension.

Three policy variants share that pipeline:

- the base program;
- IIS-3, which overrides nothing;
- PDS2, which adds tiered, capped state co-financing and a fee on income and
  on the mean balance.

The metrics module turns a finished run into:

- savings and ROI;
- the IRR cash-flow vector;
- the time-weighted-return sub-period returns;
- the replacement ratio and the first pension.

The security models produce per-step paths. A stock path is the trailing
252-step compounded return. A bond path is a mean-reverting yield
recurrence. The portfolio model checks that the weights sum to one,
correlates standard-normal draws through a given Cholesky factor, and sums
the weighted asset paths of each simulation.

Files, one module each:

- `wrappers.dfy`: `Option`, `Result`, `Outcome`.
- `real_math.dfy`: powers, sums and the compounded growth product.
- `macro.dfy`: the salary and unemployment plugins and their interface contracts.
- `securities.dfy`: the stock and bond paths.
- `portfolio.dfy`: the weight check, correlation and the Monte-Carlo aggregation.
- `metrics.dfy`: the metrics.
- `programs.dfy`: validation, the six stages, the variants, `Run` and `ComputeMetrics`.
- `scenarios.dfy`: the closed form of a fixed-payment run.

Quantities are `real`.

- Python's NaN and None results are `Option.None`.
- An exception raised by a stage is a `Result.Failure` that carries the
  kind of error.
- Random draws, the Cholesky factor, `sqrt(dt)` and the step count
  `int(n_years / dt)` are parameters.

## Model

| member | source | states |
|---|---|---|
| Programs.CheckInput | models/programs/base.py:55-61 | validation fails exactly for "relative" without a payment rate or "const" without a fixed payment, with the matching error |
| Programs.OtherModeComputedAsFixed | models/programs/base.py:92-96 | a mode string other than the two named ones passes validation and yields the fixed-mode contributions, or a None-operand error without a fixed payment |
| Programs.SimulateSalary | models/programs/base.py:74-81 | without a plugin the salaries are n copies of the initial salary (length n, no settlement entry); with the deterministic plugin they are its output, which meets the plugin contract, and the stage fails only when n = 0 |
| Programs.InPlaceMultiply | models/programs/base.py:86 | numpy's in-place product succeeds exactly when the lengths agree or the right side has one element, keeps the left length, and multiplies element-wise or by the single factor |
| Programs.ApplyUnemploymentShocks | models/programs/base.py:83-88 | without a plugin the shocks are n + 1 ones and the salaries are unchanged; with one the shocks are the Weibull rule's, the salaries are multiplied by them element-wise, and a length mismatch raises |
| Programs.RelativePayments | models/programs/base.py:100-106 | the payment loop yields one payment per working year, payment 0 being salary 0 times the rate; `RelativePaymentsStep` and `RelativePaymentsSumForm` state the rest |
| Programs.RelativePaymentsStep | models/programs/base.py:104-106 | relative-mode payment i is salary i times the rate plus the deduction on payment i - 1 |
| Programs.SalaryContributions | models/programs/base.py:98-111 | relative mode: n + 1 payments and deductions, payment 0 the salary share, deduction 0 zero, deduction i the tax on payment i - 1 (also at the terminal index n), payment i salary share plus deduction i, terminal payment zero |
| Programs.LaggedDeductions | models/programs/base.py:102-108 | the deduction of year i is the tax on payment i - 1, none in year 0, one more entry than there are payments |
| Programs.RelativePaymentsClosedForm | models/programs/base.py:104-106 | unrolled recurrence: payment i is the rate times the salaries discounted once per later year by the tax rate |
| Programs.RelativePaymentsSumForm | models/programs/base.py:104-106 | payment i is the rate times the sum over j <= i of salary j times tax^(i - j) |
| Programs.FixedContributions | models/programs/base.py:113-122 | fixed mode: payment i is fix times shock i for i < n and 0 at n; deduction 0 is 0 and deduction i is fix times tax times shock i for 1 <= i <= n |
| Programs.CalculateContributions | models/programs/base.py:92-96 | "relative" selects the salary contributions (failing when n = 0) and every other mode the fixed ones (failing without a fixed payment); both have n + 1 entries |
| Programs.PDS2CoFinancing | models/programs/test.py:12-29 | n + 1 entries, zero at 0 and above year 10, otherwise min(36000, tier share of the previous year's payment), the tier chosen from the initial salary |
| Programs.CoFinancing | models/programs/base.py:126-127 | the hook is n + 1 zeros for the base and IIS-3 variants and the PDS2 rule for PDS2 |
| Programs.CoFinancingCapped | models/programs/test.py:22-27 | PDS2 co-financing never exceeds 36000 |
| Programs.CoFinancingBoundedByPrevious | models/programs/test.py:22-27 | for non-negative payments, PDS2 co-financing of year i lies between 0 and payment i - 1 |
| Programs.Fee | models/programs/base.py:159-160 | the fee hook is zero for every variant but PDS2 |
| Programs.FeeNonNegative | models/programs/test.py:31-34 | the PDS2 fee 0.2 perc + 0.005 (prev + current) / 2 is non-negative for non-negative arguments |
| Programs.StepBalance | models/programs/base.py:150-155 | with a non-negative starting balance, base and rate, one year's after-fee balance never exceeds (inflow + previous balance) times (1 + rate): fees only take away |
| Programs.ZeroFeeStep | models/programs/base.py:150-155 | without a fee a year's after-fee balance is (inflow + previous balance) times (1 + rate) |
| Programs.AfterFeeBalances | models/programs/base.py:142-155 | one balance per year; year 0 starts from zero, year i from the after-fee balance of year i - 1 plus its inflow |
| Programs.SimulatePortfolioWithFees | models/programs/base.py:137-157 | len(rates) + 1 entries: the after-fee balances, then the last balance plus the last tax deduction |
| Programs.AccumulationIgnoresLateInflows | models/programs/base.py:150-157 | inflows at indices at or beyond len(rates) do not change the balance path |
| Programs.AddElementwise | models/programs/base.py:132 | total inflow i is payment i plus deduction i plus co-financing i |
| Programs.AnnuityMonths | models/programs/base.py:186-187 | the annuity figure is the table entry at (age + n, sex), None without a table, a failure when the key is missing |
| Programs.Finalize | models/programs/base.py:184-190 | first pension times the annuity months is the final accumulation; None without a table; a missing key raises |
| Programs.EarlyStages | models/programs/base.py:63-66 | stages 1 to 3 fail exactly on the listed inputs, otherwise give n + 1 shocks, payments and deductions and the mode's contributions (n + 1 ones as shocks without a plugin) |
| Programs.Accumulate | models/programs/base.py:126-135 | stages 4 and 5 fail exactly when there is no rate or more rates than n + 1 entries, and otherwise sum the inflows and hold the fee-bearing path of them |
| Programs.LateStages | models/programs/base.py:67-69 | stages 4 to 6 fail exactly on a bad rate count or a missing life-table key, keep the earlier arrays and settle the first pension |
| Programs.Settle | models/programs/base.py:135 | the final accumulation is the last entry of the balance path |
| Programs.LateStagesShape | models/programs/base.py:131-157 | after the last stages every per-year array has n + 1 entries, each inflow is its three parts, and the final accumulation is the last balance plus the last deduction |
| Programs.LateStagesAccumulate | models/programs/base.py:131-135 | the trajectory holds the hook's co-financing and the fee-bearing path of its own inflows |
| Programs.Run | models/programs/base.py:63-70 | a run fails exactly on the inputs some stage raises on (`RunOutcome` adds the well-shaped state, `RunIsLateStages` the stage order) |
| Programs.RunOutcome | models/programs/base.py:63-70 | a run fails exactly on the inputs some stage raises on, and otherwise leaves a well-shaped state |
| Programs.RunIsLateStages | models/programs/base.py:63-70 | a successful run is the last three stages applied to the first three stages' output |
| Programs.RunPension | models/programs/base.py:184-190 | every successful run has a None pension exactly without a life table, and otherwise pension times annuity months equals the final accumulation |
| Programs.AfterFeeSameWithoutFees | models/programs/iis3.py:4-12 | the base and IIS-3 balances agree year by year |
| Programs.AccumulateSameWithoutFees | models/programs/iis3.py:4-12 | the IIS-3 accumulation equals the base accumulation |
| Programs.LateStagesSameWithoutFees | models/programs/iis3.py:4-12 | the IIS-3 late stages equal the base ones |
| Programs.RunIIS3MatchesBase | models/programs/iis3.py:4-12 | an IIS-3 run equals the base run on every input |
| Programs.SalaryShareInPayment | models/programs/base.py:106 | in relative mode payment i already contains deduction i |
| Programs.RelativeModeCountsDeductionTwice | models/programs/base.py:132 | in relative mode inflow i is the salary share plus twice the deduction plus the co-financing |
| Programs.TerminalInflowNeverAccumulated | models/programs/base.py:157 | with one rate per working year, changing the year-n inflow (PDS2 co-financing included) leaves the balance path unchanged |
| Programs.ComputeMetrics | models/programs/base.py:162-182 | fails before a run; on a finished state fails exactly on a missing life-table key, a TWR index past the balance path, or a None pension divided by the replacement ratio, with the matching error; otherwise savings is the final accumulation, pension times annuity months is the final accumulation (None exactly without a table), kz is the replacement ratio of that pension, an IRR is a root of the cash flows, the TWR growth and period count are those of the sub-returns, and ROI is taken over the first n payments |
| Programs.MetricsOfSettledState | models/programs/base.py:162-190 | on a state whose pension was settled from the life table the metrics never miss the key, fail only on the TWR index or the None-pension division, and recompute the settled pension |
| Programs.MetricsAfterRun | models/programs/base.py:63-70 | after a successful run the metrics fail exactly on the TWR index or the None-pension division and report the run's own first pension |
| Programs.TwrDefinedAfterRun | quality/metrics.py:22-33 | after a successful run with at least n - 1 rates the TWR loop stays inside the balance path |
| Programs.MetricsWithoutLifeTableRaise | models/programs/base.py:167-180 | without a life table the None pension reaches the replacement ratio, which raises whenever the salary mean is non-zero or undefined |
| Metrics.RoiMetric | quality/metrics.py:9-12 | None exactly when the total is 0, otherwise ROI times total is final minus total |
| Metrics.RoiPositiveIffGain | quality/metrics.py:9-12 | with a positive total, ROI is positive exactly when the final accumulation exceeds the total |
| Metrics.IrrMetric | quality/metrics.py:14-20 | with a root-finder that reports only roots, a reported IRR makes the future value of the cash flows zero |
| Metrics.IrrCashFlows | quality/metrics.py:14-16 | len(payments) flows (one when there are none): minus each payment except the last, then the final accumulation |
| Metrics.IrrRoundTrip | quality/metrics.py:14-20 | one payment p, n empty years and a final p (1 + x)^n give cash flows whose future value at x is zero, i.e. x is an IRR root |
| Metrics.TwrSubReturns | quality/metrics.py:22-35 | max(1, len(payments) - 1) sub-returns, so the NaN branch is unreachable; each is balance over base minus one, 0 on a zero base |
| Metrics.TwrGrowth | quality/metrics.py:34 | when every sub-return is non-negative the compounded growth is at least 1 |
| Metrics.TwrTelescopes | quality/metrics.py:26-34 | with a single initial payment and non-zero balances the first k growth factors multiply to balance k - 1 over the payment |
| Metrics.TwrSinglePaymentGrowth | quality/metrics.py:22-35 | the whole-horizon TWR growth in that case is the last balance over the initial payment |
| Metrics.KzWindow | quality/metrics.py:38 | the slice [-(n + 1):-1] under Python's bound normalisation, including short inputs |
| Metrics.KzWindowIsWorkingYears | quality/metrics.py:38 | with n + 1 salaries the window is the first n |
| Metrics.KzMetric | quality/metrics.py:37-39 | NaN on a zero mean, a None pension otherwise raises, and a result times the mean monthly salary is the pension |
| Metrics.PensionMetric | quality/metrics.py:41-44 | None exactly when the annuity figure is None, otherwise pension times months is the final accumulation |
| Macro.MonthlySalariesClosedForm | models/macro/salary.py:9-12 | year i's monthly salary is the initial one times (1 + g)^i |
| Macro.DeterministicSalary | models/macro/salary.py:8-13 | n + 1 entries, entry i is 12 initial (1 + g)^i for i < n, and the last is 0 |
| Macro.DeterministicSalaryMeetsContract | models/macro/base.py:6-9 | the deterministic model meets the salary-plugin contract: n + 1 salaries, the last 0 |
| Macro.DeterministicSalaryNonDecreasing | models/macro/salary.py:11-12 | with g >= 0 and a non-negative initial salary the working-year salaries never decrease |
| Macro.SimulateShocks | models/macro/unemployment.py:14-25 | n + 1 multipliers, the first 1, 1 when the year's binomial draw stays, else one minus the unemployed share of the year |
| Macro.WeibullShocksMeetContract | models/macro/unemployment.py:21-24 | with non-negative durations the shocks meet the plugin contract: every multiplier lies in [0, 1] |
| Macro.LongSpellGivesZero | models/macro/unemployment.py:22-24 | a spell of 12 months or more gives multiplier 0 |
| Securities.StepReturns | models/securities/stocks.py:13-14 | one return per shock up to n_steps: mu dt + sigma sqrt(dt) shock |
| Securities.RollingReturn | models/securities/stocks.py:15-17 | 0 until a full 252-step window exists, then the window's compounded growth minus one |
| Securities.RollingReturnSlides | models/securities/stocks.py:16 | sliding the window one step swaps the oldest growth factor for the newest |
| Securities.RollingReturnOfZeros | models/securities/stocks.py:16-17 | zero step returns give an identically zero path |
| Securities.StockPath | models/securities/stocks.py:12-17 | the path has one entry per used step and is identically zero when n_steps < 252 |
| Securities.BondPath | models/securities/bonds.py:11-18 | n_steps yields, the first y0, each later one the mean-reverting step from the previous |
| Securities.BondIgnoresFirstShock | models/securities/bonds.py:14-17 | shock 0 is never read: streams that differ only there give the same path |
| Securities.BondDeterministicDecay | models/securities/bonds.py:15-17 | without volatility Y[t] - b = (1 - a dt)^t (Y0 - b) |
| Securities.BondAtMeanStays | models/securities/bonds.py:15-17 | without volatility a bond starting at b stays at b |
| Securities.SimulatePath | models/securities/base.py:13-15 | the path interface dispatches on the asset kind; a bond path starts at y0 |
| Portfolio.NewPortfolio | models/securities/portfolio.py:6-18 | a failed factorisation is reported first; otherwise construction succeeds exactly when the weight sum is within 1.1e-5 of 1 |
| Portfolio.Correlate | models/securities/portfolio.py:25-26 | correlated row i at step t is the sum over j of L[i][j] Z[j][t] |
| Portfolio.IdentityFactorKeepsDraws | models/securities/portfolio.py:25-26 | an identity factor leaves the draws unchanged |
| Portfolio.AssetPaths | models/securities/portfolio.py:28-29 | asset i's path is driven by correlated row i |
| Portfolio.WeightedSumIsSum | models/securities/portfolio.py:28-30 | the column accumulated from zero holds, at each step, the sum of weight times path |
| Portfolio.ColumnIsWeightedSum | models/securities/portfolio.py:28-30 | a simulation's column at step t is the weighted sum of the asset paths on that simulation's correlated draws |
| Portfolio.AggregateColumn | models/securities/portfolio.py:28-30 | the inner loop computes that weighted sum |
| Portfolio.SimulateColumn | models/securities/portfolio.py:25-30 | one simulation correlates its own draws and aggregates them |
| Portfolio.SimulateColumns | models/securities/portfolio.py:24-30 | column s is computed from the draws of simulation s alone |
| Portfolio.Simulate | models/securities/portfolio.py:20-32 | an n_steps by n_simulations matrix whose entry (t, s) is step t of simulation s's column |
| Scenarios.LevelBalanceGeometric | models/programs/base.py:150-155 | r times the level-payment balance after k years is p (1 + r) ((1 + r)^k - 1) |
| Scenarios.LevelBalanceAtZeroRate | models/programs/base.py:150-155 | at a zero rate the level-payment balance is k payments |
| Scenarios.FeeFreeBalance | models/programs/base.py:150-155 | without fees, with constant inflow p and rate r, after-fee balance k - 1 is the level-payment balance after k years |
| Scenarios.FixedScenarioEarly | models/programs/base.py:113-122 | in the fixed-mode setting the first three stages succeed with the fixed contributions on unit shocks |
| Scenarios.FixedModeInflows | models/programs/base.py:113-132 | with a zero tax rate and no co-financing every working-year inflow is the fixed payment and the last deduction is 0 |
| Scenarios.FixedScenarioLate | models/programs/base.py:131-157 | the last stages then succeed and the final accumulation is the last after-fee balance of inflows all equal to p |
| Scenarios.FixedModeClosedForm | models/programs/base.py:143-157 | a fee-free fixed-mode run at a constant rate ends with the level-payment (annuity-due) balance |
| Scenarios.ThreeYearRun | models/programs/base.py:63-70 | three years of 1000 at 5 % end with 3310.125 |

## Left out

- Randomness: the seeds, binomial draws, Weibull inverse-CDF durations and normal draws are all parameters. The Weibull log and fractional power are not computed.
- Numerics: the Cholesky factorisation is a given `Option<Matrix>`, with None for a matrix that is not positive-definite. `sqrt(dt)` and `int(n_years / dt)` are given as well.
- The `numpy_financial.irr` root-finder is a parameter, taken to report only roots of the cash flows' future value (`Metrics.SoundSolver`). Its search and its failure modes are not modelled. `Metrics.IrrRoundTrip` states a root through the future value of the cash flows.
- The TWR metric's final root `prod ** (1 / len(returns)) - 1` is not computed. `ComputeMetrics` reports the compounded growth and the period count instead.
- Floating point: rounding, overflow, IEEE infinities and NaN propagation. For example, the base program divides by a zero annuity figure and gets `inf`.
- Programs.Finalize: requires the annuity figure at (age + n, sex), the only entry it divides by, to be non-zero when present. A zero there gives an IEEE infinity (or NaN for a zero accumulation) rather than a value or an error. Other entries of the table may be anything (`Programs.UnreadZeroAnnuityAllowed`). Programs.LateStages, Programs.Settle, Programs.Run and Programs.ComputeMetrics carry the same requirement for the same reason.
- Programs.Run: a `None` rate list (a TypeError in the source) and a `None` initial salary are not representable. The rates are a sequence and the initial salary a real. In the source a None salary does not always raise. A fixed-mode run of the base or IIS-3 variant without salary or unemployment plugins builds an object array of Nones and never reads it, so `run()` completes, and only the replacement ratio in `compute_metrics` then raises. The PDS2 co-financing compares the initial salary with its tiers and raises once n >= 1. With an unemployment plugin, the in-place product of n Nones with n + 1 shocks raises once n >= 1.
- Programs.SimulateSalary: numpy's integer dtype, when `np.full` receives an integer initial salary, is not modelled. Neither is a negative `n` (it is a `nat`).
- Programs.ComputeMetrics: the result's dictionary keys become fields of a record, and the TWR entry is its growth and period count.
- `get_detailed_report` (models/programs/base.py:192-265) is presentation with its own recomputation of balances. tqdm progress output is also left out.
- main.py, scenarios/__init__.py, data/estimators/salary_trajectory.py, models/securities/__init__.py and models/model_templates/base.py are drivers, I/O, calibration or empty templates. They are not part of this model.
- Portfolio.Simulate: `n_simulations` is the number of draw blocks supplied rather than a separate argument.
- Programs.RelativeModeCountsDeductionTwice and Programs.TerminalInflowNeverAccumulated: stated at the accumulation stage, for the contributions the earlier stages produce, rather than for a whole `Run`.
- Scenarios.FixedModeClosedForm: stated for a zero tax-deduction rate, no unemployment plugin, a non-PDS2 variant and one rate per working year. Outside that setting the closed form does not hold.

## Notes on the source's behaviour

- The fixed-mode final balance is the annuity-due value P((1 + r) + ... + (1 + r)^n), not the ordinary-annuity value P((1 + r)^n - 1)/r: each year's payment is added before that year's return is credited (`Scenarios.LevelBalanceGeometric`). 1000 a year for three years at 5 % gives 3310.125 (`Scenarios.ThreeYearRun`).
- `np.isclose` adds its default relative tolerance 1e-5 to the absolute tolerance 1e-6, so the accepted band for the weight sum is 1.1e-5 (`Portfolio.NewPortfolio`).
- `compute_metrics` has no guard against being called before `run()`; the first read of the missing payments raises (`Programs.ComputeMetrics`).
- Validation checks only the two named modes. Any other mode string is computed as fixed mode (`Programs.OtherModeComputedAsFixed`).
- The TWR code has a NaN branch for an empty return list. It cannot be reached, because `r0` is always appended (`Metrics.TwrSubReturns`).
