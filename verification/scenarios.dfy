/** Closed forms of the pipeline in fixed-payment mode. With a constant
    payment p, no tax deduction, no unemployment plugin, no fees and one
    constant rate r per working year, the final accumulation is the balance
    of an annuity due: every payment is made at the start of its year and
    earns that year's return, so r times the balance is
    p (1 + r) ((1 + r)^n - 1). */
module Scenarios {
  import opened RealMath
  import opened Wrappers
  import opened Macro
  import opened Programs

  /** The balance after k years of paying p at the start of each year and
      earning r on everything. */
  function LevelBalance(p: real, r: real, k: nat): real {
    if k == 0 then 0.0 else Mul(p + LevelBalance(p, r, k - 1), 1.0 + r)
  }

  /** The geometric-series form of that balance. */
  predicate GeometricForm(p: real, r: real, k: nat) {
    r * LevelBalance(p, r, k) == p * ((1.0 + r) * (Pow(1.0 + r, k) - 1.0))
  }

  lemma {:induction false} LevelBalanceGeometric(p: real, r: real, k: nat)
    ensures GeometricForm(p, r, k)
  {
    if k > 0 {
      LevelBalanceGeometric(p, r, k - 1);
      GeometricStep(p, r, k);
    }
  }

  lemma GeometricStep(p: real, r: real, k: nat)
    requires k > 0
    requires GeometricForm(p, r, k - 1)
    ensures GeometricForm(p, r, k)
  {
    GeometricArithmetic(p, r, LevelBalance(p, r, k - 1), Pow(1.0 + r, k - 1), LevelBalance(p, r, k), Pow(1.0 + r, k));
  }

  lemma GeometricArithmetic(p: real, r: real, previous: real, g: real, balance: real, next: real)
    requires r * previous == p * ((1.0 + r) * (g - 1.0))
    requires balance == Mul(p + previous, 1.0 + r)
    requires next == Mul(1.0 + r, g)
    ensures r * balance == p * ((1.0 + r) * (next - 1.0))
  {
    assert r * balance == (1.0 + r) * (r * p + r * previous);
  }

  /** At a zero rate the balance is just the k payments. */
  lemma {:induction false} LevelBalanceAtZeroRate(p: real, k: nat)
    ensures LevelBalance(p, 0.0, k) == (k as real) * p
  {
    if k > 0 {
      LevelBalanceAtZeroRate(p, k - 1);
      ZeroRateStep(p, k, LevelBalance(p, 0.0, k - 1), LevelBalance(p, 0.0, k));
    }
  }

  lemma ZeroRateStep(p: real, k: nat, previous: real, balance: real)
    requires k > 0
    requires previous == ((k - 1) as real) * p
    requires balance == Mul(p + previous, 1.0 + 0.0)
    ensures balance == (k as real) * p
  {
  }

  /** With no fee, a constant inflow p and a constant rate r, the after-fee
      balances are the level-payment balances. */
  lemma {:induction false} FeeFreeBalance(v: Variant, inflows: seq<real>, rates: seq<real>, k: nat, p: real, r: real)
    requires v != PDS2
    requires 1 <= k <= |rates| <= |inflows|
    requires forall i :: 0 <= i < k ==> inflows[i] == p && rates[i] == r
    ensures AfterFeeBalances(v, inflows, rates, k)[k - 1] == LevelBalance(p, r, k)
  {
    if k == 1 {
      ZeroFeeStep(v, 0.0, p, r);
    } else {
      FeeFreeBalance(v, inflows, rates, k - 1, p, r);
      FeeFreeNextYear(v, inflows, rates, k, p, r);
    }
  }

  lemma FeeFreeNextYear(v: Variant, inflows: seq<real>, rates: seq<real>, k: nat, p: real, r: real)
    requires v != PDS2
    requires 2 <= k <= |rates| <= |inflows|
    requires inflows[k - 1] == p && rates[k - 1] == r
    requires AfterFeeBalances(v, inflows, rates, k - 1)[k - 2] == LevelBalance(p, r, k - 1)
    ensures AfterFeeBalances(v, inflows, rates, k)[k - 1] == LevelBalance(p, r, k)
  {
    var previous := AfterFeeBalances(v, inflows, rates, k - 1)[k - 2];
    LastBalance(v, inflows, rates, k);
    ZeroFeeStep(v, previous, p, r);
    SameStep(StepBalance(v, previous, p, r), previous, p, r, LevelBalance(p, r, k - 1), LevelBalance(p, r, k));
  }

  lemma LastBalance(v: Variant, inflows: seq<real>, rates: seq<real>, k: nat)
    requires 2 <= k <= |rates| <= |inflows|
    ensures AfterFeeBalances(v, inflows, rates, k)[k - 1]
            == StepBalance(v, AfterFeeBalances(v, inflows, rates, k - 1)[k - 2], inflows[k - 1], rates[k - 1])
  {
  }

  lemma SameStep(step: real, previous: real, p: real, r: real, levelPrevious: real, level: real)
    requires step == (p + previous) * (1.0 + r)
    requires previous == levelPrevious
    requires level == Mul(p + levelPrevious, 1.0 + r)
    ensures step == level
  {
  }

  /** The fixed-mode setting of the closed form. */
  predicate FixedModeScenario(prog: Program, p: real, r: real) {
    var input := prog.input;
    && input.paymentMode == "const"
    && input.fixPayment == Some(p)
    && input.taxDeductionRate == 0.0
    && input.unemploymentModel.NoUnemploymentModel?
    && prog.variant != PDS2
    && input.n >= 1
    && |input.rates| == input.n
    && (forall i :: 0 <= i < |input.rates| ==> input.rates[i] == r)
    && AnnuityNonZeroAt(prog.input, prog.lifeTable)
    && (prog.lifeTable.Some? ==> (input.age + input.n, input.sex) in prog.lifeTable.value)
  }

  /** What such a run leaves: every working-year inflow is p, the last
      deduction is zero, and the final accumulation is the last after-fee
      balance. */
  predicate FixedTrajectory(prog: Program, p: real, t: Trajectory) {
    var n := prog.input.n;
    && 1 <= n == |prog.input.rates|
    && |t.totalInflows| == n + 1
    && (forall i :: 0 <= i < n ==> t.totalInflows[i] == p)
    && t.finalAccumulation == AfterFeeBalances(prog.variant, t.totalInflows, prog.input.rates, n)[n - 1]
  }

  /** The first three stages succeed with the fixed-mode contributions and
      the run is the last three applied to them. */
  lemma FixedScenarioEarly(prog: Program, p: real, r: real)
    requires FixedModeScenario(prog, p, r)
    ensures CheckInput(prog.input).Pass?
    ensures EarlyStages(prog.input).Success?
    ensures EarlyStages(prog.input).value.1 == FixedContributions(p, 0.0, Ones(prog.input.n + 1), prog.input.n)
    ensures Run(prog) == LateStages(prog, EarlyStages(prog.input).value.0, EarlyStages(prog.input).value.1)
  {
    RunIsLateStages(prog);
  }

  /** The fixed-mode contributions: p in every working year, and nothing
      deducted. */
  lemma FixedModeInflows(input: ProgramInput, p: real, t: Trajectory)
    requires SettlementShaped(input, t)
    requires t.payments == FixedContributions(p, 0.0, Ones(input.n + 1), input.n).payments
    requires t.taxDeduction == FixedContributions(p, 0.0, Ones(input.n + 1), input.n).taxDeduction
    requires t.coFinancing == Zeros(input.n + 1)
    ensures forall i :: 0 <= i < input.n ==> t.totalInflows[i] == p
    ensures t.taxDeduction[input.n] == 0.0
  {
    var n := input.n;
    var c := FixedContributions(p, 0.0, Ones(n + 1), n);
    forall i | 0 <= i < n
      ensures t.totalInflows[i] == p
    {
      assert t.totalInflows[i] == c.payments[i] + c.taxDeduction[i] + 0.0;
      assert c.payments[i] == p * 1.0;
      if i > 0 {
        assert c.taxDeduction[i] == p * 0.0 * 1.0;
      }
    }
    assert c.taxDeduction[n] == p * 0.0 * 1.0;
  }

  /** The last three stages on those contributions succeed and leave a
      fixed-mode trajectory. */
  lemma FixedScenarioLate(prog: Program, shocked: Shocked, c: Contributions, p: real, r: real)
    requires FixedModeScenario(prog, p, r)
    requires c == FixedContributions(p, 0.0, Ones(prog.input.n + 1), prog.input.n)
    ensures LateStages(prog, shocked, c).Success?
    ensures FixedTrajectory(prog, p, LateStages(prog, shocked, c).value)
  {
    LateStagesAccumulate(prog, shocked, c);
    LateStagesShape(prog, shocked, c);
    var t := LateStages(prog, shocked, c).value;
    var n := prog.input.n;
    FixedModeInflows(prog.input, p, t);
    assert t.portfolioPath[..n] == AfterFeeBalances(prog.variant, t.totalInflows, prog.input.rates, n);
    assert t.portfolioPath[n - 1] == t.portfolioPath[..n][n - 1];
  }

  /** The closed form: such a run succeeds and its final accumulation is
      the level-payment balance after the n working years. */
  lemma FixedModeClosedForm(prog: Program, p: real, r: real)
    requires FixedModeScenario(prog, p, r)
    ensures CheckInput(prog.input).Pass? && Run(prog).Success?
    ensures Run(prog).value.finalAccumulation == LevelBalance(p, r, prog.input.n)
  {
    FixedScenarioEarly(prog, p, r);
    var early := EarlyStages(prog.input).value;
    FixedScenarioLate(prog, early.0, early.1, p, r);
    var t := Run(prog).value;
    FeeFreeBalance(prog.variant, t.totalInflows, prog.input.rates, prog.input.n, p, r);
  }

  /** Three years of 1000 at 5 %: 1050, then 2152.5, then 3310.125. */
  lemma ThreeYearsAtFivePercent()
    ensures LevelBalance(1000.0, 0.05, 3) == 3310.125
  {
    assert LevelBalance(1000.0, 0.05, 1) == 1050.0;
    assert LevelBalance(1000.0, 0.05, 2) == 2152.5;
  }

  /** The corresponding program: no salary plugin, const mode, base variant,
      no life table. */
  lemma ThreeYearRun()
    ensures var prog := Program(
              ProgramInput(3, 30, M, [0.05, 0.05, 0.05], "const", None, Some(1000.0),
                           NoSalaryModel, NoUnemploymentModel, 50000.0, 0.0),
              Base, None);
            CheckInput(prog.input).Pass? && Run(prog).Success?
            && Run(prog).value.finalAccumulation == 3310.125
  {
    var prog := Program(
      ProgramInput(3, 30, M, [0.05, 0.05, 0.05], "const", None, Some(1000.0),
                   NoSalaryModel, NoUnemploymentModel, 50000.0, 0.0),
      Base, None);
    assert FixedModeScenario(prog, 1000.0, 0.05);
    FixedModeClosedForm(prog, 1000.0, 0.05);
    ThreeYearsAtFivePercent();
  }
}
