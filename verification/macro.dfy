/** The macro-model plugins: the deterministic salary-growth path and the
    unemployment-shock combination rule, with the interface contracts of
    the two plugin kinds. Random draws are inputs: `stays(i)` is binomial
    draw i (true when it came out 1, i.e. the person stays employed) and
    `months(i)` is the i-th Weibull unemployment duration in months. */
module Macro {
  import opened RealMath

  /** A salary plugin, or its absence. */
  datatype SalaryModel =
    | NoSalaryModel
    | Deterministic(annualGrowth: real)

  /** An unemployment plugin, or its absence; the Weibull model is given
      by the two streams of draws it would consume. */
  datatype UnemploymentModel =
    | NoUnemploymentModel
    | Weibull(stays: nat -> bool, months: nat -> real)

  /** Interface contract of a salary plugin: n + 1 annual salaries, the
      last one (the settlement period) zero. */
  ghost predicate SalaryContract(nYears: nat, r: seq<real>) {
    |r| == nYears + 1 && r[nYears] == 0.0
  }

  /** Interface contract of an unemployment plugin: n + 1 multipliers,
      1 meaning fully employed and less than 1 partial unemployment. */
  ghost predicate ShockContract(nYears: nat, r: seq<real>) {
    |r| == nYears + 1 && forall i :: 0 <= i < |r| ==> 0.0 <= r[i] <= 1.0
  }

  /** Monthly salaries of the first k years, each year's the previous one's
      grown by `growth`. */
  function MonthlySalaries(initial: real, growth: real, k: nat): (m: seq<real>)
    requires k >= 1
    ensures |m| == k && m[0] == initial
  {
    if k == 1 then [initial]
    else
      var prev := MonthlySalaries(initial, growth, k - 1);
      prev + [Mul(prev[k - 2], 1.0 + growth)]
  }

  /** Year i's monthly salary is the initial one compounded i times. */
  lemma {:induction false} MonthlySalariesClosedForm(initial: real, growth: real, k: nat, i: nat)
    requires i < k
    ensures MonthlySalaries(initial, growth, k)[i] == initial * Pow(1.0 + growth, i)
  {
    if i > 0 {
      var prev := MonthlySalaries(initial, growth, k - 1);
      assert MonthlySalaries(initial, growth, k) == prev + [Mul(prev[k - 2], 1.0 + growth)];
      if i < k - 1 {
        MonthlySalariesClosedForm(initial, growth, k - 1, i);
      } else {
        MonthlySalariesClosedForm(initial, growth, k - 1, i - 1);
        CompoundOnce(initial, 1.0 + growth, Pow(1.0 + growth, i - 1));
      }
    }
  }

  lemma CompoundOnce(initial: real, factor: real, g: real)
    ensures Mul(initial * g, factor) == initial * Mul(factor, g)
  {
  }

  /** The deterministic salary model: n years of annual salary (twelve
      times the monthly figure) followed by the zero settlement entry.
      At least one year is needed: the source writes index 0 unconditionally. */
  function DeterministicSalary(nYears: nat, initial: real, growth: real): (r: seq<real>)
    requires nYears >= 1
    ensures |r| == nYears + 1
    ensures r[0] == 12.0 * initial
    ensures r[nYears] == 0.0
    ensures forall i :: 0 <= i < nYears ==> r[i] == 12.0 * initial * Pow(1.0 + growth, i)
  {
    var m := MonthlySalaries(initial, growth, nYears);
    forall i | 0 <= i < nYears
      ensures m[i] == initial * Pow(1.0 + growth, i)
    {
      MonthlySalariesClosedForm(initial, growth, nYears, i);
    }
    seq(nYears, i requires 0 <= i < nYears => m[i] * 12.0) + [0.0]
  }

  lemma DeterministicSalaryMeetsContract(nYears: nat, initial: real, growth: real)
    requires nYears >= 1
    ensures SalaryContract(nYears, DeterministicSalary(nYears, initial, growth))
  {
  }

  /** With non-negative growth and initial salary the working-year salaries
      never decrease. */
  lemma {:induction false} DeterministicSalaryNonDecreasing(nYears: nat, initial: real, growth: real, i: nat, j: nat)
    requires nYears >= 1
    requires growth >= 0.0 && initial >= 0.0
    requires i <= j < nYears
    ensures DeterministicSalary(nYears, initial, growth)[i] <= DeterministicSalary(nYears, initial, growth)[j]
  {
    var r := DeterministicSalary(nYears, initial, growth);
    PowMonotone(1.0 + growth, i, j);
    assert r[i] == (12.0 * initial) * Pow(1.0 + growth, i);
    assert r[j] == (12.0 * initial) * Pow(1.0 + growth, j);
  }

  /** Employment multiplier for a year in which the person left employment:
      one minus the unemployed share of the year, at most the whole year. */
  function UnemployedShare(months: real): real {
    Min(1.0, months / 12.0)
  }

  /** The Weibull shock rule: year 0 is always fully employed; year i >= 1
      takes binomial draw i - 1, and a zero draw is replaced by the
      employed share of the year given duration draw i. */
  function SimulateShocks(nYears: nat, stays: nat -> bool, months: nat -> real): (r: seq<real>)
    ensures |r| == nYears + 1
    ensures r[0] == 1.0
    ensures forall i :: 1 <= i <= nYears && stays(i - 1) ==> r[i] == 1.0
    ensures forall i :: 1 <= i <= nYears && !stays(i - 1) ==> r[i] == 1.0 - UnemployedShare(months(i))
  {
    seq(nYears + 1, i requires 0 <= i <= nYears => if i == 0 || stays(i - 1) then 1.0 else 1.0 - UnemployedShare(months(i)))
  }

  /** Given non-negative durations, every multiplier lies in [0, 1]. */
  lemma WeibullShocksMeetContract(nYears: nat, stays: nat -> bool, months: nat -> real)
    requires forall i: nat :: months(i) >= 0.0
    ensures ShockContract(nYears, SimulateShocks(nYears, stays, months))
  {
    var r := SimulateShocks(nYears, stays, months);
    forall i | 0 <= i < |r|
      ensures 0.0 <= r[i] <= 1.0
    {
      if i > 0 && !stays(i - 1) {
        assert months(i) >= 0.0;
      }
    }
  }

  /** A spell of a year or longer wipes out the whole year's employment. */
  lemma LongSpellGivesZero(nYears: nat, stays: nat -> bool, months: nat -> real, i: nat)
    requires 1 <= i <= nYears
    requires !stays(i - 1) && months(i) >= 12.0
    ensures SimulateShocks(nYears, stays, months)[i] == 0.0
  {
  }
}
