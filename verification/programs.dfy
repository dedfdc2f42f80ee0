/** The program engine: input validation, the six-stage accrual pipeline
    (salary, employment shocks, contributions, co-financing, fee-bearing
    accumulation, finalisation) and the metrics view over its result.
    The policy variants differ only in the co-financing and fee hooks. */
module Programs {
  import opened RealMath
  import opened Wrappers
  import opened Macro
  import Metrics

  datatype Sex = M | F

  /** Expected annuity months, keyed by (age, sex). */
  type LifeTable = map<(int, Sex), real>

  /** The program parameters. A payment mode other than "relative" is
      computed as fixed mode; the mode strings are kept as given. */
  datatype ProgramInput = ProgramInput(
    n: nat,
    age: int,
    sex: Sex,
    rates: seq<real>,
    paymentMode: string,
    paymentRate: Option<real>,
    fixPayment: Option<real>,
    salaryModel: SalaryModel,
    unemploymentModel: UnemploymentModel,
    initialSalary: real,
    taxDeductionRate: real)

  /** The base program and its two subclasses, which differ from it only in
      the co-financing and fee hooks (IIS3 overrides neither). */
  datatype Variant = Base | IIS3 | PDS2

  datatype ProgramError =
    | MissingPaymentRate     // validation: relative mode without a payment rate
    | MissingFixPayment      // validation: const mode without a fixed payment
    | NoneOperand            // arithmetic on a parameter or pension that is None
    | BroadcastMismatch      // salaries and shocks cannot be multiplied in place
    | IndexOutOfRange        // an array is indexed past its end
    | MissingLifeTableEntry  // the life table has no row for (age + n, sex)

  datatype Program = Program(input: ProgramInput, variant: Variant, lifeTable: Option<LifeTable>)

  /** The finished state of one run; read-only afterwards. */
  datatype Trajectory = Trajectory(
    annualSalaries: seq<real>,
    shocks: seq<real>,
    payments: seq<real>,
    taxDeduction: seq<real>,
    coFinancing: seq<real>,
    totalInflows: seq<real>,
    portfolioPath: seq<real>,
    finalAccumulation: real,
    firstPension: Option<real>)

  // ---------------------------------------------------------------------
  // Validation

  /** The construction-time check: only the two named modes are checked. */
  function CheckInput(input: ProgramInput): (r: Outcome<ProgramError>)
    ensures r.Fail? <==>
              ((input.paymentMode == "relative" && input.paymentRate.None?)
               || (input.paymentMode == "const" && input.fixPayment.None?))
    ensures r.Fail? ==> r.error == (if input.paymentMode == "relative" then MissingPaymentRate else MissingFixPayment)
  {
    if input.paymentMode == "relative" && input.paymentRate.None? then Fail(MissingPaymentRate)
    else if input.paymentMode == "const" && input.fixPayment.None? then Fail(MissingFixPayment)
    else Pass
  }

  /** The annuity figure a run divides by, the one at (age + n, sex), is not
      zero when it is present. Other entries of the table are never read. */
  predicate AnnuityNonZeroAt(input: ProgramInput, table: Option<LifeTable>) {
    var key := (input.age + input.n, input.sex);
    table.Some? && key in table.value ==> table.value[key] != 0.0
  }

  /** Only the looked-up figure matters: a table with a zero at an age the
      run never reads is admitted. */
  lemma UnreadZeroAnnuityAllowed(input: ProgramInput, months: real)
    requires months != 0.0
    ensures var key := (input.age + input.n, input.sex);
            AnnuityNonZeroAt(input, Some(map[key := months, (input.age + input.n + 1, input.sex) := 0.0]))
  {
  }

  // ---------------------------------------------------------------------
  // Stages 1 and 2: salaries and employment shocks

  /** Stage 1. Without a plugin the salary is the initial salary repeated
      n times (no settlement entry); the deterministic plugin needs n >= 1. */
  function SimulateSalary(input: ProgramInput): (r: Result<seq<real>, ProgramError>)
    ensures input.salaryModel.NoSalaryModel? ==>
              r.Success? && |r.value| == input.n
              && forall i :: 0 <= i < input.n ==> r.value[i] == input.initialSalary
    ensures input.salaryModel.Deterministic? ==> (r.Failure? <==> input.n == 0)
    ensures input.salaryModel.Deterministic? && r.Success? ==>
              SalaryContract(input.n, r.value)
              && r.value == DeterministicSalary(input.n, input.initialSalary, input.salaryModel.annualGrowth)
  {
    match input.salaryModel
    case NoSalaryModel => Success(seq(input.n, i => input.initialSalary))
    case Deterministic(g) =>
      if input.n == 0 then Failure(IndexOutOfRange)
      else Success(DeterministicSalary(input.n, input.initialSalary, g))
  }

  /** numpy's in-place `a *= b` on one-dimensional arrays: element-wise when
      the lengths agree, a scalar broadcast when b has one element, an error
      otherwise (the result must keep a's shape). */
  function InPlaceMultiply(a: seq<real>, b: seq<real>): (r: Result<seq<real>, ProgramError>)
    ensures r.Success? <==> |a| == |b| || |b| == 1
    ensures r.Success? ==> |r.value| == |a|
    ensures r.Success? && |a| == |b| ==> forall i :: 0 <= i < |a| ==> r.value[i] == a[i] * b[i]
    ensures r.Success? && |b| == 1 ==> forall i :: 0 <= i < |a| ==> r.value[i] == a[i] * b[0]
  {
    if |a| == |b| then Success(seq(|a|, i requires 0 <= i < |a| => a[i] * b[i]))
    else if |b| == 1 then Success(seq(|a|, i requires 0 <= i < |a| => a[i] * b[0]))
    else Failure(BroadcastMismatch)
  }

  function Ones(k: nat): (r: seq<real>)
    ensures |r| == k && forall i :: 0 <= i < k ==> r[i] == 1.0
  {
    seq(k, i => 1.0)
  }

  datatype Shocked = Shocked(salaries: seq<real>, shocks: seq<real>)

  /** Stage 2. Without a plugin the shocks are n + 1 ones and the salaries
      are left alone; with one, the salaries are multiplied by the shocks. */
  function ApplyUnemploymentShocks(input: ProgramInput, salaries: seq<real>): (r: Result<Shocked, ProgramError>)
    ensures r.Success? ==> |r.value.shocks| == input.n + 1 && |r.value.salaries| == |salaries|
    ensures input.unemploymentModel.NoUnemploymentModel? ==>
              r.Success? && r.value.salaries == salaries && r.value.shocks == Ones(input.n + 1)
    ensures input.unemploymentModel.Weibull? ==>
              (r.Failure? <==> |salaries| != input.n + 1 && input.n != 0)
    ensures input.unemploymentModel.Weibull? && r.Success? ==>
              var u := input.unemploymentModel;
              r.value.shocks == SimulateShocks(input.n, u.stays, u.months)
              && (|salaries| == input.n + 1 ==>
                    forall i :: 0 <= i < |salaries| ==> r.value.salaries[i] == salaries[i] * r.value.shocks[i])
  {
    match input.unemploymentModel
    case NoUnemploymentModel => Success(Shocked(salaries, Ones(input.n + 1)))
    case Weibull(stays, months) =>
      var shocks := SimulateShocks(input.n, stays, months);
      var s :- InPlaceMultiply(salaries, shocks);
      Success(Shocked(s, shocks))
  }

  // ---------------------------------------------------------------------
  // Stage 3: contributions

  datatype Contributions = Contributions(payments: seq<real>, taxDeduction: seq<real>)

  /** The tax deduction earned by a payment. */
  function Deduction(payment: real, tax: real): real {
    payment * tax
  }

  /** The first k relative-mode payments: each year's salary share plus the
      deduction on the previous year's payment (see `RelativePaymentsStep`). */
  function RelativePayments(salaries: seq<real>, rate: real, tax: real, k: nat): (p: seq<real>)
    requires 1 <= k <= |salaries|
    ensures |p| == k
    ensures p[0] == salaries[0] * rate
  {
    if k == 1 then [salaries[0] * rate]
    else
      RelativePayments(salaries, rate, tax, k - 1)
      + [salaries[k - 1] * rate + Deduction(RelativePayments(salaries, rate, tax, k - 1)[k - 2], tax)]
  }

  /** Payment i is salary i's share plus the deduction on payment i - 1. */
  lemma {:induction false} RelativePaymentsStep(salaries: seq<real>, rate: real, tax: real, k: nat, i: nat)
    requires 1 <= i < k <= |salaries|
    ensures var p := RelativePayments(salaries, rate, tax, k);
            p[i] == salaries[i] * rate + Deduction(p[i - 1], tax)
  {
    var p := RelativePayments(salaries, rate, tax, k);
    var prev := RelativePayments(salaries, rate, tax, k - 1);
    assert p == prev + [salaries[k - 1] * rate + Deduction(prev[k - 2], tax)];
    if i < k - 1 {
      RelativePaymentsStep(salaries, rate, tax, k - 1, i);
      assert p[i] == prev[i] && p[i - 1] == prev[i - 1];
    }
  }

  /** Relative mode: a one-year-lagged tax deduction that is already part of
      the payment, and a terminal period carrying only the last deduction. */
  function SalaryContributions(salaries: seq<real>, rate: real, tax: real, n: nat): (c: Contributions)
    requires 1 <= n <= |salaries|
    ensures |c.payments| == n + 1 && |c.taxDeduction| == n + 1
    ensures c.payments[0] == salaries[0] * rate && c.taxDeduction[0] == 0.0
    ensures forall i :: 1 <= i < n ==> c.taxDeduction[i] == Deduction(c.payments[i - 1], tax)
    ensures forall i {:trigger salaries[i]} :: 1 <= i < n ==> c.payments[i] == salaries[i] * rate + c.taxDeduction[i]
    ensures c.taxDeduction[n] == Deduction(c.payments[n - 1], tax)
    ensures c.payments[n] == 0.0
  {
    var p := RelativePayments(salaries, rate, tax, n);
    SalaryContributionsRecurrence(salaries, rate, tax, n);
    Contributions(p + [0.0], LaggedDeductions(p, tax))
  }

  lemma SalaryContributionsRecurrence(salaries: seq<real>, rate: real, tax: real, n: nat)
    requires 1 <= n <= |salaries|
    ensures var p := RelativePayments(salaries, rate, tax, n);
            var c := Contributions(p + [0.0], LaggedDeductions(p, tax));
            forall i {:trigger salaries[i]} :: 1 <= i < n ==> c.payments[i] == salaries[i] * rate + c.taxDeduction[i]
  {
    var p := RelativePayments(salaries, rate, tax, n);
    var c := Contributions(p + [0.0], LaggedDeductions(p, tax));
    forall i | 1 <= i < n
      ensures c.payments[i] == salaries[i] * rate + c.taxDeduction[i]
    {
      RelativePaymentsStep(salaries, rate, tax, n, i);
      assert c.payments[i] == p[i] && c.taxDeduction[i] == Deduction(p[i - 1], tax);
    }
  }

  /** Deduction of year i: the tax rate applied to payment i - 1; none in year 0. */
  function LaggedDeductions(p: seq<real>, tax: real): (d: seq<real>)
    ensures |d| == |p| + 1
    ensures d[0] == 0.0
    ensures forall i :: 1 <= i <= |p| ==> d[i] == Deduction(p[i - 1], tax)
  {
    seq(|p| + 1, i requires 0 <= i <= |p| => if i == 0 then 0.0 else Deduction(p[i - 1], tax))
  }

  /** Salary j's share still inside payment i after i - j deductions. */
  function LaggedShares(salaries: seq<real>, tax: real, i: nat): (r: seq<real>)
    requires i < |salaries|
    ensures |r| == i + 1
  {
    seq(i + 1, j requires 0 <= j <= i => salaries[j] * Pow(tax, i - j))
  }

  function Scale(x: seq<real>, c: real): (y: seq<real>)
    ensures |y| == |x| && forall j :: 0 <= j < |x| ==> y[j] == x[j] * c
  {
    seq(|x|, j requires 0 <= j < |x| => x[j] * c)
  }

  lemma {:induction false} SumScaled(x: seq<real>, c: real)
    ensures Sum(Scale(x, c)) == Sum(x) * c
  {
    if |x| > 0 {
      var y := Scale(x, c);
      var x' := x[..|x| - 1];
      var z := Scale(x', c);
      assert |y[..|y| - 1]| == |z|;
      assert forall j :: 0 <= j < |z| ==> y[..|y| - 1][j] == z[j];
      assert y[..|y| - 1] == z;
      SumScaled(x', c);
    }
  }

  /** Adding one year to the lagged shares discounts every earlier salary once
      more and appends the new salary at full weight. */
  lemma LaggedSharesStep(salaries: seq<real>, tax: real, i: nat)
    requires i < |salaries|
    ensures i == 0 ==> Sum(LaggedShares(salaries, tax, i)) == salaries[0]
    ensures i > 0 ==>
              Sum(LaggedShares(salaries, tax, i)) == Mul(Sum(LaggedShares(salaries, tax, i - 1)), tax) + salaries[i]
  {
    var l := LaggedShares(salaries, tax, i);
    assert l[..i] == l[..|l| - 1];
    assert l[i] == salaries[i] * Pow(tax, 0) == salaries[i];
    if i == 0 {
      assert l[..0] == [];
    } else {
      var prev := LaggedShares(salaries, tax, i - 1);
      LaggedSharesDiscounted(salaries, tax, i);
      SumScaled(prev, tax);
    }
  }

  /** All but the newest share are the previous year's shares discounted once more. */
  lemma LaggedSharesDiscounted(salaries: seq<real>, tax: real, i: nat)
    requires 1 <= i < |salaries|
    ensures LaggedShares(salaries, tax, i)[..i] == Scale(LaggedShares(salaries, tax, i - 1), tax)
  {
    var l := LaggedShares(salaries, tax, i);
    var scaled := Scale(LaggedShares(salaries, tax, i - 1), tax);
    forall j | 0 <= j < i
      ensures l[..i][j] == scaled[j]
    {
      var q := Pow(tax, i - 1 - j);
      assert Pow(tax, i - j) == Mul(tax, q);
      DiscountOnce(salaries[j], tax, q);
    }
    assert |l[..i]| == |scaled|;
  }

  lemma DiscountOnce(salary: real, tax: real, q: real)
    ensures salary * Mul(tax, q) == (salary * q) * tax
  {
  }

  /** One step of the recurrence keeps the payment a multiple of the rate. */
  lemma RecurrenceStep(previous: real, payment: real, salary: real, rate: real, tax: real, total: real)
    requires previous == rate * total
    requires payment == salary * rate + Deduction(previous, tax)
    ensures payment == rate * (Mul(total, tax) + salary)
  {
  }

  /** Salaries 0 .. i, each discounted once per later year by the tax rate. */
  function DiscountedSalaries(salaries: seq<real>, tax: real, i: nat): real
    requires i < |salaries|
  {
    if i == 0 then salaries[0] else Mul(DiscountedSalaries(salaries, tax, i - 1), tax) + salaries[i]
  }

  /** Unrolling the recurrence: payment i is the payment rate times the
      discounted salaries up to year i. */
  lemma {:induction false} RelativePaymentsClosedForm(salaries: seq<real>, rate: real, tax: real, k: nat, i: nat)
    requires 1 <= k <= |salaries| && i < k
    ensures RelativePayments(salaries, rate, tax, k)[i] == rate * DiscountedSalaries(salaries, tax, i)
  {
    var p := RelativePayments(salaries, rate, tax, k);
    if i > 0 {
      RelativePaymentsClosedForm(salaries, rate, tax, k, i - 1);
      RelativePaymentsStep(salaries, rate, tax, k, i);
      RecurrenceStep(p[i - 1], p[i], salaries[i], rate, tax, DiscountedSalaries(salaries, tax, i - 1));
    }
  }

  /** The discounted salaries are the sum of the lagged shares
      salary j times tax^(i - j). */
  lemma {:induction false} DiscountedSalariesAreLaggedSum(salaries: seq<real>, tax: real, i: nat)
    requires i < |salaries|
    ensures DiscountedSalaries(salaries, tax, i) == Sum(LaggedShares(salaries, tax, i))
  {
    LaggedSharesStep(salaries, tax, i);
    if i > 0 {
      DiscountedSalariesAreLaggedSum(salaries, tax, i - 1);
    }
  }

  /** Payment i is the payment rate times every salary up to year i,
      salary j discounted by tax^(i - j). */
  lemma RelativePaymentsSumForm(salaries: seq<real>, rate: real, tax: real, k: nat, i: nat)
    requires 1 <= k <= |salaries| && i < k
    ensures RelativePayments(salaries, rate, tax, k)[i] == rate * Sum(LaggedShares(salaries, tax, i))
  {
    RelativePaymentsClosedForm(salaries, rate, tax, k, i);
    DiscountedSalariesAreLaggedSum(salaries, tax, i);
  }

  /** Fixed mode: the fixed payment in each working year and the deduction on
      it from year 1 on, both scaled by that year's employment shock. */
  function FixedContributions(fix: real, tax: real, shocks: seq<real>, n: nat): (c: Contributions)
    requires |shocks| == n + 1
    ensures |c.payments| == n + 1 && |c.taxDeduction| == n + 1
    ensures forall i :: 0 <= i < n ==> c.payments[i] == fix * shocks[i]
    ensures c.payments[n] == 0.0 && c.taxDeduction[0] == 0.0
    ensures forall i :: 1 <= i <= n ==> c.taxDeduction[i] == fix * tax * shocks[i]
  {
    var base := seq(n + 1, i requires 0 <= i <= n => if i < n then fix else 0.0);
    var deduction := seq(n + 1, i requires 0 <= i <= n => if i == 0 then 0.0 else fix * tax);
    Contributions(
      seq(n + 1, i requires 0 <= i <= n => base[i] * shocks[i]),
      seq(n + 1, i requires 0 <= i <= n => deduction[i] * shocks[i]))
  }

  /** Stage 3: relative mode when the mode is "relative", fixed mode for every
      other mode string. */
  function CalculateContributions(input: ProgramInput, salaries: seq<real>, shocks: seq<real>): (r: Result<Contributions, ProgramError>)
    requires CheckInput(input).Pass?
    requires |salaries| >= input.n && |shocks| == input.n + 1
    ensures input.paymentMode == "relative" ==>
              (r.Failure? <==> input.n == 0)
              && (r.Success? ==> r.value == SalaryContributions(salaries, input.paymentRate.value, input.taxDeductionRate, input.n))
    ensures input.paymentMode != "relative" ==>
              (r.Failure? <==> input.fixPayment.None?)
              && (r.Success? ==> r.value == FixedContributions(input.fixPayment.value, input.taxDeductionRate, shocks, input.n))
    ensures r.Success? ==> |r.value.payments| == input.n + 1 && |r.value.taxDeduction| == input.n + 1
  {
    if input.paymentMode == "relative" then
      if input.n == 0 then Failure(IndexOutOfRange)
      else Success(SalaryContributions(salaries, input.paymentRate.value, input.taxDeductionRate, input.n))
    else
      match input.fixPayment
      case None => Failure(NoneOperand)
      case Some(fix) => Success(FixedContributions(fix, input.taxDeductionRate, shocks, input.n))
  }

  /** A mode string other than the two named ones passes validation (when a
      payment rate is not the only thing missing) and is computed as fixed. */
  lemma OtherModeComputedAsFixed(input: ProgramInput, salaries: seq<real>, shocks: seq<real>)
    requires input.paymentMode != "relative" && input.paymentMode != "const"
    requires |salaries| >= input.n && |shocks| == input.n + 1
    ensures CheckInput(input).Pass?
    ensures input.fixPayment.Some? ==>
              CalculateContributions(input, salaries, shocks)
              == Success(FixedContributions(input.fixPayment.value, input.taxDeductionRate, shocks, input.n))
    ensures input.fixPayment.None? ==> CalculateContributions(input, salaries, shocks) == Failure(NoneOperand)
  {
  }

  // ---------------------------------------------------------------------
  // Stage 4: co-financing

  /** The PDS2 matching ceiling per year and the number of matched years. */
  const CoFinancingCap: real := 36000.0
  const CoFinancingYears: nat := 10

  /** The matched share of last year's payment, tiered by the initial salary. */
  function TierShare(initialSalary: real, contribution: real): real {
    if initialSalary < 80000.0 then contribution
    else if initialSalary < 150000.0 then contribution / 2.0
    else contribution / 4.0
  }

  /** PDS2 co-financing: years 1 .. min(10, n) match the previous year's
      payment, tiered by initial salary and capped; every other year is 0. */
  function PDS2CoFinancing(payments: seq<real>, n: nat, initialSalary: real): (c: seq<real>)
    requires |payments| >= n
    ensures |c| == n + 1
    ensures c[0] == 0.0
    ensures forall i :: CoFinancingYears < i <= n ==> c[i] == 0.0
    ensures forall i :: 1 <= i <= n && i <= CoFinancingYears ==>
              c[i] == Min(CoFinancingCap, TierShare(initialSalary, payments[i - 1]))
  {
    seq(n + 1, i requires 0 <= i <= n =>
      if 1 <= i <= CoFinancingYears then Min(CoFinancingCap, TierShare(initialSalary, payments[i - 1])) else 0.0)
  }

  /** Stage 4, the co-financing hook: zero unless overridden by PDS2. */
  function CoFinancing(v: Variant, payments: seq<real>, n: nat, initialSalary: real): (c: seq<real>)
    requires |payments| >= n
    ensures |c| == n + 1
    ensures v != PDS2 ==> c == Zeros(n + 1)
    ensures v == PDS2 ==> c == PDS2CoFinancing(payments, n, initialSalary)
  {
    match v
    case PDS2 => PDS2CoFinancing(payments, n, initialSalary)
    case _ => Zeros(n + 1)
  }

  /** PDS2 co-financing never exceeds the ceiling. */
  lemma CoFinancingCapped(payments: seq<real>, n: nat, initialSalary: real)
    requires |payments| >= n
    ensures forall i :: 0 <= i <= n ==> PDS2CoFinancing(payments, n, initialSalary)[i] <= CoFinancingCap
  {
  }

  /** For non-negative payments, PDS2 co-financing is non-negative and never
      exceeds the previous year's payment. */
  lemma CoFinancingBoundedByPrevious(payments: seq<real>, n: nat, initialSalary: real)
    requires |payments| >= n
    requires forall i :: 0 <= i < |payments| ==> payments[i] >= 0.0
    ensures forall i :: 1 <= i <= n ==>
              0.0 <= PDS2CoFinancing(payments, n, initialSalary)[i] <= payments[i - 1]
  {
    var c := PDS2CoFinancing(payments, n, initialSalary);
    forall i | 1 <= i <= n
      ensures 0.0 <= c[i] <= payments[i - 1]
    {
      if i <= CoFinancingYears {
        assert 0.0 <= TierShare(initialSalary, payments[i - 1]) <= payments[i - 1];
      }
    }
  }

  // ---------------------------------------------------------------------
  // Stage 5: fee-bearing accumulation

  /** The PDS2 fee rates: on the year's income, and on the mean balance. */
  const PDS2VarRate: real := 0.2
  const PDS2FixedRate: real := 0.005

  /** The fee hook: zero unless overridden by PDS2. */
  function Fee(v: Variant, perc: real, prevValue: real, currentValue: real): (f: real)
    ensures v != PDS2 ==> f == 0.0
  {
    match v
    case PDS2 => PDS2VarRate * perc + PDS2FixedRate * (prevValue + currentValue) / 2.0
    case _ => 0.0
  }

  /** With non-negative income and balances the PDS2 fee is non-negative. */
  lemma FeeNonNegative(v: Variant, perc: real, prevValue: real, currentValue: real)
    requires perc >= 0.0 && prevValue >= 0.0 && currentValue >= 0.0
    ensures Fee(v, perc, prevValue, currentValue) >= 0.0
  {
  }

  /** One year: add the inflow to last year's after-fee balance, earn the
      year's rate, pay the fee on the income and on the mean balance. */
  function StepBalance(v: Variant, prev: real, inflow: real, rate: real): (b: real)
    ensures prev >= 0.0 && inflow + prev >= 0.0 && rate >= 0.0 ==> b <= (inflow + prev) * (1.0 + rate)
  {
    var before := inflow + prev;
    var perc := before * rate;
    var after := before + perc;
    after - Fee(v, perc, prev, after)
  }

  /** Without a fee the after-fee balance is the after-return balance. */
  lemma ZeroFeeStep(v: Variant, prev: real, inflow: real, rate: real)
    requires v != PDS2
    ensures StepBalance(v, prev, inflow, rate) == (inflow + prev) * (1.0 + rate)
  {
  }

  /** The first k after-fee balances; year 0 starts from a zero balance. */
  function AfterFeeBalances(v: Variant, inflows: seq<real>, rates: seq<real>, k: nat): (b: seq<real>)
    requires 1 <= k <= |rates| <= |inflows|
    ensures |b| == k
    ensures b[0] == StepBalance(v, 0.0, inflows[0], rates[0])
    ensures forall i {:trigger rates[i]} :: 1 <= i < k ==> b[i] == StepBalance(v, b[i - 1], inflows[i], rates[i])
  {
    if k == 1 then [StepBalance(v, 0.0, inflows[0], rates[0])]
    else
      var prev := AfterFeeBalances(v, inflows, rates, k - 1);
      prev + [StepBalance(v, prev[k - 2], inflows[k - 1], rates[k - 1])]
  }

  /** What the accumulation indexes: `rates[0]`, an inflow per rate, and the
      last tax deduction. */
  predicate AccumulationDefined(inflows: seq<real>, rates: seq<real>, tax: seq<real>) {
    1 <= |rates| <= |inflows| && |tax| >= 1
  }

  /** One balance per rate, then a settlement entry that adds only the last
      tax deduction (the terminal inflow itself is never accumulated). */
  function SimulatePortfolioWithFees(v: Variant, inflows: seq<real>, rates: seq<real>, tax: seq<real>): (path: seq<real>)
    requires AccumulationDefined(inflows, rates, tax)
    ensures |path| == |rates| + 1
    ensures path[..|rates|] == AfterFeeBalances(v, inflows, rates, |rates|)
    ensures path[|rates|] == path[|rates| - 1] + tax[|tax| - 1]
  {
    var b := AfterFeeBalances(v, inflows, rates, |rates|);
    assert (b + [b[|b| - 1] + tax[|tax| - 1]])[..|rates|] == b;
    b + [b[|b| - 1] + tax[|tax| - 1]]
  }

  /** Inflows at or beyond the number of rates never reach the balances. */
  lemma {:induction false} AfterFeeIgnoresLateInflows(v: Variant, in1: seq<real>, in2: seq<real>, rates: seq<real>, k: nat)
    requires 1 <= k <= |rates| <= |in1| && |rates| <= |in2|
    requires forall i :: 0 <= i < |rates| ==> in1[i] == in2[i]
    ensures AfterFeeBalances(v, in1, rates, k) == AfterFeeBalances(v, in2, rates, k)
  {
    if k > 1 {
      AfterFeeIgnoresLateInflows(v, in1, in2, rates, k - 1);
    }
  }

  lemma AccumulationIgnoresLateInflows(v: Variant, in1: seq<real>, in2: seq<real>, rates: seq<real>, tax: seq<real>)
    requires AccumulationDefined(in1, rates, tax) && AccumulationDefined(in2, rates, tax)
    requires forall i :: 0 <= i < |rates| ==> in1[i] == in2[i]
    ensures SimulatePortfolioWithFees(v, in1, rates, tax) == SimulatePortfolioWithFees(v, in2, rates, tax)
  {
    AfterFeeIgnoresLateInflows(v, in1, in2, rates, |rates|);
  }

  function AddElementwise(a: seq<real>, b: seq<real>, c: seq<real>): (r: seq<real>)
    requires |a| == |b| == |c|
    ensures |r| == |a| && forall i :: 0 <= i < |a| ==> r[i] == a[i] + b[i] + c[i]
  {
    seq(|a|, i requires 0 <= i < |a| => a[i] + b[i] + c[i])
  }

  // ---------------------------------------------------------------------
  // Stage 6: finalisation

  /** The annuity figure for the retirement age, None without a table. */
  function AnnuityMonths(input: ProgramInput, table: Option<LifeTable>): (r: Result<Option<real>, ProgramError>)
    ensures table.None? ==> r == Success(None)
    ensures table.Some? ==>
              (r.Failure? <==> (input.age + input.n, input.sex) !in table.value)
              && (r.Success? ==> r.value == Some(table.value[(input.age + input.n, input.sex)]))
  {
    match table
    case None => Success(None)
    case Some(t) =>
      var key := (input.age + input.n, input.sex);
      if key in t then Success(Some(t[key])) else Failure(MissingLifeTableEntry)
  }

  /** The first pension payment: the final accumulation spread over the
      annuity months at age + n, or None without a life table. */
  function Finalize(input: ProgramInput, table: Option<LifeTable>, finalAccumulation: real): (r: Result<Option<real>, ProgramError>)
    requires AnnuityNonZeroAt(input, table)
    ensures table.None? ==> r == Success(None)
    ensures table.Some? && r.Success? ==>
              (input.age + input.n, input.sex) in table.value && r.value.Some?
              && r.value.value * table.value[(input.age + input.n, input.sex)] == finalAccumulation
    ensures r.Failure? <==> table.Some? && (input.age + input.n, input.sex) !in table.value
  {
    var months :- AnnuityMonths(input, table);
    Success(Metrics.PensionMetric(finalAccumulation, months))
  }

  // ---------------------------------------------------------------------
  // The pipeline

  /** Exactly the inputs on which one of the first three stages raises. */
  predicate EarlyStagesFail(input: ProgramInput) {
    || (input.salaryModel.Deterministic? && input.n == 0)
    || (input.salaryModel.NoSalaryModel? && input.unemploymentModel.Weibull? && input.n >= 1)
    || (input.paymentMode == "relative" && input.n == 0)
    || (input.paymentMode != "relative" && input.fixPayment.None?)
  }

  /** Exactly the inputs on which some stage raises. */
  predicate RunFails(prog: Program) {
    var input := prog.input;
    || EarlyStagesFail(input)
    || |input.rates| == 0
    || |input.rates| > input.n + 1
    || (prog.lifeTable.Some? && (input.age + input.n, input.sex) !in prog.lifeTable.value)
  }

  /** Stages 1 to 3: salaries, employment shocks, contributions. */
  function EarlyStages(input: ProgramInput): (r: Result<(Shocked, Contributions), ProgramError>)
    requires CheckInput(input).Pass?
    ensures r.Failure? <==> EarlyStagesFail(input)
    ensures r.Success? ==>
              |r.value.0.shocks| == input.n + 1
              && |r.value.0.salaries| == (if input.salaryModel.Deterministic? then input.n + 1 else input.n)
              && |r.value.1.payments| == input.n + 1
              && |r.value.1.taxDeduction| == input.n + 1
    ensures r.Success? && input.paymentMode == "relative" ==>
              r.value.1 == SalaryContributions(r.value.0.salaries, input.paymentRate.value, input.taxDeductionRate, input.n)
    ensures r.Success? && input.paymentMode != "relative" ==>
              r.value.1 == FixedContributions(input.fixPayment.value, input.taxDeductionRate, r.value.0.shocks, input.n)
    ensures r.Success? && input.unemploymentModel.NoUnemploymentModel? ==> r.value.0.shocks == Ones(input.n + 1)
  {
    var salaries :- SimulateSalary(input);
    var shocked :- ApplyUnemploymentShocks(input, salaries);
    var contributions :- CalculateContributions(input, shocked.salaries, shocked.shocks);
    Success((shocked, contributions))
  }

  /** What stages 4 and 5 add to the state. */
  datatype Accumulated = Accumulated(coFinancing: seq<real>, totalInflows: seq<real>, portfolioPath: seq<real>)

  /** Stages 4 and 5 on the contributions: co-financing, then fee-bearing
      accumulation of the summed inflows. */
  function Accumulate(prog: Program, contributions: Contributions): (r: Result<Accumulated, ProgramError>)
    requires |contributions.payments| == prog.input.n + 1 && |contributions.taxDeduction| == prog.input.n + 1
    ensures r.Failure? <==> |prog.input.rates| == 0 || |prog.input.rates| > prog.input.n + 1
    ensures r.Success? ==>
              var a := r.value;
              && a.coFinancing == CoFinancing(prog.variant, contributions.payments, prog.input.n, prog.input.initialSalary)
              && |a.totalInflows| == prog.input.n + 1
              && (forall i :: 0 <= i <= prog.input.n ==>
                    a.totalInflows[i] == contributions.payments[i] + contributions.taxDeduction[i] + a.coFinancing[i])
              && AccumulationDefined(a.totalInflows, prog.input.rates, contributions.taxDeduction)
              && a.portfolioPath == SimulatePortfolioWithFees(prog.variant, a.totalInflows, prog.input.rates, contributions.taxDeduction)
  {
    var input := prog.input;
    var payments := contributions.payments;
    var tax := contributions.taxDeduction;
    var coFinancing := CoFinancing(prog.variant, payments, input.n, input.initialSalary);
    var inflows := AddElementwise(payments, tax, coFinancing);
    if !AccumulationDefined(inflows, input.rates, tax) then Failure(IndexOutOfRange)
    else Success(Accumulated(coFinancing, inflows, SimulatePortfolioWithFees(prog.variant, inflows, input.rates, tax)))
  }

  /** Stages 4 to 6 on the contributions: co-financing, fee-bearing
      accumulation, first pension. */
  function LateStages(prog: Program, shocked: Shocked, contributions: Contributions): (r: Result<Trajectory, ProgramError>)
    requires AnnuityNonZeroAt(prog.input, prog.lifeTable)
    requires |contributions.payments| == prog.input.n + 1 && |contributions.taxDeduction| == prog.input.n + 1
    ensures r.Failure? <==>
              || |prog.input.rates| == 0
              || |prog.input.rates| > prog.input.n + 1
              || (prog.lifeTable.Some? && (prog.input.age + prog.input.n, prog.input.sex) !in prog.lifeTable.value)
    ensures r.Success? ==>
              && r.value.annualSalaries == shocked.salaries
              && r.value.shocks == shocked.shocks
              && r.value.payments == contributions.payments
              && r.value.taxDeduction == contributions.taxDeduction
    ensures r.Success? ==> PensionSettled(prog, r.value)
  {
    var acc :- Accumulate(prog, contributions);
    Settle(prog, shocked, contributions, acc)
  }

  /** Stage 6 on the accumulated state: the last balance is the final
      accumulation, and the first pension is settled from it. */
  function Settle(prog: Program, shocked: Shocked, contributions: Contributions, acc: Accumulated): (r: Result<Trajectory, ProgramError>)
    requires AnnuityNonZeroAt(prog.input, prog.lifeTable)
    requires |acc.portfolioPath| >= 1
    ensures r.Failure? <==> prog.lifeTable.Some? && (prog.input.age + prog.input.n, prog.input.sex) !in prog.lifeTable.value
    ensures r.Success? ==>
              && r.value.annualSalaries == shocked.salaries
              && r.value.shocks == shocked.shocks
              && r.value.payments == contributions.payments
              && r.value.taxDeduction == contributions.taxDeduction
              && r.value.portfolioPath == acc.portfolioPath
              && r.value.finalAccumulation == acc.portfolioPath[|acc.portfolioPath| - 1]
    ensures r.Success? ==> PensionSettled(prog, r.value)
  {
    var finalAccumulation := acc.portfolioPath[|acc.portfolioPath| - 1];
    var pension :- Finalize(prog.input, prog.lifeTable, finalAccumulation);
    Success(Trajectory(shocked.salaries, shocked.shocks, contributions.payments, contributions.taxDeduction,
                       acc.coFinancing, acc.totalInflows, acc.portfolioPath, finalAccumulation, pension))
  }

  /** The arrays the last three stages add: one entry per year, each year's
      inflow its payment, deduction and co-financing, one balance per rate
      plus the settlement entry, which adds the last deduction to the last
      balance and is the final accumulation. */
  predicate SettlementShaped(input: ProgramInput, t: Trajectory) {
    && |t.taxDeduction| == input.n + 1
    && |t.payments| == input.n + 1
    && |t.coFinancing| == input.n + 1
    && |t.totalInflows| == input.n + 1
    && (forall i :: 0 <= i <= input.n ==>
          t.totalInflows[i] == t.payments[i] + t.taxDeduction[i] + t.coFinancing[i])
    && 1 <= |input.rates| <= input.n + 1
    && |t.portfolioPath| == |input.rates| + 1
    && t.finalAccumulation == t.portfolioPath[|input.rates|]
    && t.portfolioPath[|input.rates|] == t.portfolioPath[|input.rates| - 1] + t.taxDeduction[input.n]
  }

  lemma LateStagesShape(prog: Program, shocked: Shocked, contributions: Contributions)
    requires AnnuityNonZeroAt(prog.input, prog.lifeTable)
    requires |contributions.payments| == prog.input.n + 1 && |contributions.taxDeduction| == prog.input.n + 1
    requires LateStages(prog, shocked, contributions).Success?
    ensures SettlementShaped(prog.input, LateStages(prog, shocked, contributions).value)
  {
  }

  /** The trajectory of the last three stages holds the hook's co-financing
      and the balance path of its own inflows. */
  lemma LateStagesAccumulate(prog: Program, shocked: Shocked, contributions: Contributions)
    requires AnnuityNonZeroAt(prog.input, prog.lifeTable)
    requires |contributions.payments| == prog.input.n + 1 && |contributions.taxDeduction| == prog.input.n + 1
    requires LateStages(prog, shocked, contributions).Success?
    ensures var t := LateStages(prog, shocked, contributions).value;
            && t.coFinancing == CoFinancing(prog.variant, t.payments, prog.input.n, prog.input.initialSalary)
            && AccumulationDefined(t.totalInflows, prog.input.rates, t.taxDeduction)
            && t.portfolioPath == SimulatePortfolioWithFees(prog.variant, t.totalInflows, prog.input.rates, t.taxDeduction)
  {
  }

  /** `run()`: the six stages in order, each feeding the next. */
  function Run(prog: Program): (r: Result<Trajectory, ProgramError>)
    requires CheckInput(prog.input).Pass?
    requires AnnuityNonZeroAt(prog.input, prog.lifeTable)
    ensures r.Failure? <==> RunFails(prog)
  {
    var (shocked, contributions) :- EarlyStages(prog.input);
    LateStages(prog, shocked, contributions)
  }

  /** The state a successful run leaves: every per-year array has n + 1
      entries, the balance path one per rate plus the settlement entry, and
      the final accumulation is the settlement entry. */
  predicate WellShaped(input: ProgramInput, t: Trajectory) {
    && |t.shocks| == input.n + 1
    && |t.annualSalaries| == (if input.salaryModel.Deterministic? then input.n + 1 else input.n)
    && SettlementShaped(input, t)
  }

  /** A run fails exactly on the inputs of `RunFails`, and otherwise leaves a
      well-shaped state. */
  lemma RunOutcome(prog: Program)
    requires CheckInput(prog.input).Pass?
    requires AnnuityNonZeroAt(prog.input, prog.lifeTable)
    ensures Run(prog).Failure? <==> RunFails(prog)
    ensures Run(prog).Success? ==> WellShaped(prog.input, Run(prog).value)
  {
    RunIsLateStages(prog);
    var early := EarlyStages(prog.input);
    if early.Success? && Run(prog).Success? {
      LateStagesShape(prog, early.value.0, early.value.1);
    }
  }

  /** A run succeeds only past the first three stages, and is then the last
      three stages applied to what they produced. */
  lemma RunIsLateStages(prog: Program)
    requires CheckInput(prog.input).Pass?
    requires AnnuityNonZeroAt(prog.input, prog.lifeTable)
    ensures EarlyStages(prog.input).Failure? ==> Run(prog).Failure?
    ensures EarlyStages(prog.input).Success? ==>
              Run(prog) == LateStages(prog, EarlyStages(prog.input).value.0, EarlyStages(prog.input).value.1)
  {
  }

  /** The first pension of a state: None without a life table, and otherwise
      the final accumulation spread over the annuity months at age + n. */
  predicate PensionSettled(prog: Program, t: Trajectory) {
    && (prog.lifeTable.None? <==> t.firstPension.None?)
    && (prog.lifeTable.Some? ==>
          var key := (prog.input.age + prog.input.n, prog.input.sex);
          key in prog.lifeTable.value
          && t.firstPension.Some?
          && t.firstPension.value * prog.lifeTable.value[key] == t.finalAccumulation)
  }

  /** Every successful run settles its first pension that way. */
  lemma RunPension(prog: Program)
    requires CheckInput(prog.input).Pass?
    requires AnnuityNonZeroAt(prog.input, prog.lifeTable)
    requires Run(prog).Success?
    ensures PensionSettled(prog, Run(prog).value)
  {
    RunIsLateStages(prog);
  }

  /** Fees and co-financing of the two non-PDS2 variants agree, so their
      balances agree year by year. */
  lemma {:induction false} AfterFeeSameWithoutFees(v1: Variant, v2: Variant, inflows: seq<real>, rates: seq<real>, k: nat)
    requires v1 != PDS2 && v2 != PDS2
    requires 1 <= k <= |rates| <= |inflows|
    ensures AfterFeeBalances(v1, inflows, rates, k) == AfterFeeBalances(v2, inflows, rates, k)
  {
    if k > 1 {
      AfterFeeSameWithoutFees(v1, v2, inflows, rates, k - 1);
      var prev := AfterFeeBalances(v1, inflows, rates, k - 1);
      SameStepWithoutFees(v1, v2, prev[k - 2], inflows[k - 1], rates[k - 1]);
    } else {
      SameStepWithoutFees(v1, v2, 0.0, inflows[0], rates[0]);
    }
  }

  lemma SameStepWithoutFees(v1: Variant, v2: Variant, prev: real, inflow: real, rate: real)
    requires v1 != PDS2 && v2 != PDS2
    ensures StepBalance(v1, prev, inflow, rate) == StepBalance(v2, prev, inflow, rate)
  {
    ZeroFeeStep(v1, prev, inflow, rate);
    ZeroFeeStep(v2, prev, inflow, rate);
  }

  /** Accumulation ignores which of the two fee-free variants runs it. */
  lemma AccumulateSameWithoutFees(input: ProgramInput, lifeTable: Option<LifeTable>, contributions: Contributions)
    requires |contributions.payments| == input.n + 1 && |contributions.taxDeduction| == input.n + 1
    ensures Accumulate(Program(input, IIS3, lifeTable), contributions) == Accumulate(Program(input, Base, lifeTable), contributions)
  {
    var a1 := Accumulate(Program(input, IIS3, lifeTable), contributions);
    var a2 := Accumulate(Program(input, Base, lifeTable), contributions);
    if a1.Success? {
      AfterFeeSameWithoutFees(IIS3, Base, a1.value.totalInflows, input.rates, |input.rates|);
      assert a1.value.totalInflows == a2.value.totalInflows;
    }
  }

  /** IIS-3 inherits every stage unchanged: its runs are the base program's. */
  lemma RunIIS3MatchesBase(input: ProgramInput, lifeTable: Option<LifeTable>)
    requires CheckInput(input).Pass?
    requires AnnuityNonZeroAt(input, lifeTable)
    ensures Run(Program(input, IIS3, lifeTable)) == Run(Program(input, Base, lifeTable))
  {
    RunIsLateStages(Program(input, IIS3, lifeTable));
    RunIsLateStages(Program(input, Base, lifeTable));
    var early := EarlyStages(input);
    if early.Success? {
      LateStagesSameWithoutFees(input, lifeTable, early.value.0, early.value.1);
    }
  }

  lemma LateStagesSameWithoutFees(input: ProgramInput, lifeTable: Option<LifeTable>, shocked: Shocked, contributions: Contributions)
    requires AnnuityNonZeroAt(input, lifeTable)
    requires |contributions.payments| == input.n + 1 && |contributions.taxDeduction| == input.n + 1
    ensures LateStages(Program(input, IIS3, lifeTable), shocked, contributions)
            == LateStages(Program(input, Base, lifeTable), shocked, contributions)
  {
    AccumulateSameWithoutFees(input, lifeTable, contributions);
  }

  /** Year i's inflow holds the salary share once and the deduction twice. */
  predicate DeductionCountedTwice(inflows: seq<real>, salaries: seq<real>, tax: seq<real>, coFinancing: seq<real>, rate: real, i: nat) {
    && i < |inflows| && i < |salaries| && i < |tax| && i < |coFinancing|
    && inflows[i] == salaries[i] * rate + 2.0 * tax[i] + coFinancing[i]
  }

  lemma SalaryShareInPayment(salaries: seq<real>, rate: real, tax: real, n: nat, i: nat)
    requires 1 <= i < n <= |salaries|
    ensures var c := SalaryContributions(salaries, rate, tax, n);
            c.payments[i] == salaries[i] * rate + c.taxDeduction[i]
  {
  }

  /** In relative mode (stage 3 then yields `SalaryContributions`), the
      deduction already inside payment i is counted a second time when the
      year's inflow adds the deduction array. */
  lemma RelativeModeCountsDeductionTwice(prog: Program, salaries: seq<real>, contributions: Contributions, i: nat)
    requires 1 <= i < prog.input.n <= |salaries| && prog.input.paymentRate.Some?
    requires contributions == SalaryContributions(salaries, prog.input.paymentRate.value, prog.input.taxDeductionRate, prog.input.n)
    requires Accumulate(prog, contributions).Success?
    ensures var a := Accumulate(prog, contributions).value;
            DeductionCountedTwice(a.totalInflows, salaries, contributions.taxDeduction, a.coFinancing, prog.input.paymentRate.value, i)
  {
    SalaryShareInPayment(salaries, prog.input.paymentRate.value, prog.input.taxDeductionRate, prog.input.n, i);
  }

  /** With one rate per working year the balance path stops at year n - 1,
      so the year-n inflow, the PDS2 co-financing of year n included, never
      earns or reaches the final accumulation: any other year-n inflow gives
      the same path. */
  lemma TerminalInflowNeverAccumulated(prog: Program, contributions: Contributions, otherFinalInflow: real)
    requires |contributions.payments| == prog.input.n + 1 && |contributions.taxDeduction| == prog.input.n + 1
    requires |prog.input.rates| == prog.input.n
    requires Accumulate(prog, contributions).Success?
    ensures var a := Accumulate(prog, contributions).value;
            var altered := a.totalInflows[prog.input.n := otherFinalInflow];
            && AccumulationDefined(altered, prog.input.rates, contributions.taxDeduction)
            && SimulatePortfolioWithFees(prog.variant, altered, prog.input.rates, contributions.taxDeduction) == a.portfolioPath
  {
    var a := Accumulate(prog, contributions).value;
    var altered := a.totalInflows[prog.input.n := otherFinalInflow];
    AccumulationIgnoresLateInflows(prog.variant, a.totalInflows, altered, prog.input.rates, contributions.taxDeduction);
  }

  // ---------------------------------------------------------------------
  // Metrics view

  datatype MetricsReport = MetricsReport(
    savings: real,
    roi: Option<real>,
    irr: Option<real>,
    twrGrowth: real,
    twrPeriods: nat,
    pension: Option<real>,
    kz: Option<real>)

  /** Exactly the finished states on which `compute_metrics` raises: the
      life-table lookup misses its key, the TWR loop indexes past the balance
      path, or the replacement ratio divides the None pension that a missing
      life table leaves (an empty salary window has a NaN mean, which is not
      0, so it divides as well). */
  predicate MetricsRaise(prog: Program, t: Trajectory) {
    var w := Metrics.KzWindow(t.annualSalaries, prog.input.n);
    || (prog.lifeTable.Some? && (prog.input.age + prog.input.n, prog.input.sex) !in prog.lifeTable.value)
    || !Metrics.TwrDefined(t.portfolioPath, t.payments)
    || (prog.lifeTable.None? && (|w| == 0 || Metrics.MeanMonthly(w) != 0.0))
  }

  /** `compute_metrics`. `state` is None before `run()`: nothing guards that
      case, so the first use of the missing payments raises. The pension is
      recomputed from the life table and may be None, which the replacement
      ratio then divides. */
  function ComputeMetrics(prog: Program, state: Option<Trajectory>, irrSolver: seq<real> -> Option<real>): (r: Result<MetricsReport, ProgramError>)
    requires AnnuityNonZeroAt(prog.input, prog.lifeTable)
    requires Metrics.SoundSolver(irrSolver)
    ensures state.None? ==> r == Failure(NoneOperand)
    ensures state.Some? ==> (r.Failure? <==> MetricsRaise(prog, state.value))
    ensures state.Some? && r.Failure? ==>
              r.error == (if prog.lifeTable.Some? && (prog.input.age + prog.input.n, prog.input.sex) !in prog.lifeTable.value
                          then MissingLifeTableEntry
                          else if !Metrics.TwrDefined(state.value.portfolioPath, state.value.payments) then IndexOutOfRange
                          else NoneOperand)
    ensures r.Success? ==> state.Some? && r.value.savings == state.value.finalAccumulation
    ensures r.Success? ==> (r.value.pension.None? <==> prog.lifeTable.None?)
    ensures r.Success? && r.value.pension.Some? ==>
              var key := (prog.input.age + prog.input.n, prog.input.sex);
              key in prog.lifeTable.value && r.value.pension.value * prog.lifeTable.value[key] == state.value.finalAccumulation
    ensures r.Success? ==> Success(r.value.kz) == Metrics.KzMetric(r.value.pension, state.value.annualSalaries, prog.input.n)
    ensures r.Success? && r.value.irr.Some? ==>
              Metrics.FutureValue(Metrics.IrrCashFlows(state.value.payments, state.value.finalAccumulation), r.value.irr.value) == 0.0
    ensures r.Success? ==>
              && Metrics.TwrDefined(state.value.portfolioPath, state.value.payments)
              && r.value.twrGrowth == Metrics.TwrGrowth(state.value.portfolioPath, state.value.payments)
              && r.value.twrPeriods == |Metrics.TwrSubReturns(state.value.portfolioPath, state.value.payments)|
    ensures r.Success? && |state.value.payments| == prog.input.n + 1 ==>
              r.value.roi == Metrics.RoiMetric(state.value.finalAccumulation, Sum(state.value.payments[..prog.input.n]))
  {
    match state
    case None => Failure(NoneOperand)
    case Some(t) =>
      var totalPayments := Sum(Metrics.DropLast(t.payments));
      var months :- AnnuityMonths(prog.input, prog.lifeTable);
      var pension := Metrics.PensionMetric(t.finalAccumulation, months);
      if !Metrics.TwrDefined(t.portfolioPath, t.payments) then Failure(IndexOutOfRange)
      else
        var kz := Metrics.KzMetric(pension, t.annualSalaries, prog.input.n);
        if kz.Failure? then Failure(NoneOperand)
        else
          Success(MetricsReport(
            Metrics.SavingsMetric(t.finalAccumulation),
            Metrics.RoiMetric(t.finalAccumulation, totalPayments),
            Metrics.IrrMetric(t.payments, t.finalAccumulation, irrSolver),
            Metrics.TwrGrowth(t.portfolioPath, t.payments),
            Metrics.TwrCount(t.payments),
            pension,
            kz.value))
  }

  /** After a successful run the metrics never miss the life-table key that
      the run already read, and they recompute the run's own first pension.
      They raise only when the TWR loop runs past the balance path (possible
      when fewer rates than working years are given) or when a missing life
      table leaves the replacement ratio to divide None. */
  lemma MetricsAfterRun(prog: Program, irrSolver: seq<real> -> Option<real>)
    requires CheckInput(prog.input).Pass?
    requires AnnuityNonZeroAt(prog.input, prog.lifeTable)
    requires Metrics.SoundSolver(irrSolver)
    requires Run(prog).Success?
    ensures var t := Run(prog).value;
            var w := Metrics.KzWindow(t.annualSalaries, prog.input.n);
            ComputeMetrics(prog, Some(t), irrSolver).Failure? <==>
              !Metrics.TwrDefined(t.portfolioPath, t.payments)
              || (prog.lifeTable.None? && (|w| == 0 || Metrics.MeanMonthly(w) != 0.0))
    ensures var t := Run(prog).value;
            ComputeMetrics(prog, Some(t), irrSolver).Success? ==>
              ComputeMetrics(prog, Some(t), irrSolver).value.pension == t.firstPension
  {
    RunPension(prog);
    MetricsOfSettledState(prog, Run(prog).value, irrSolver);
  }

  /** The metrics of any state whose first pension was settled from the life
      table: the lookup cannot miss, and the pension is the settled one. */
  lemma MetricsOfSettledState(prog: Program, t: Trajectory, irrSolver: seq<real> -> Option<real>)
    requires AnnuityNonZeroAt(prog.input, prog.lifeTable)
    requires Metrics.SoundSolver(irrSolver)
    requires PensionSettled(prog, t)
    ensures var w := Metrics.KzWindow(t.annualSalaries, prog.input.n);
            ComputeMetrics(prog, Some(t), irrSolver).Failure? <==>
              !Metrics.TwrDefined(t.portfolioPath, t.payments)
              || (prog.lifeTable.None? && (|w| == 0 || Metrics.MeanMonthly(w) != 0.0))
    ensures ComputeMetrics(prog, Some(t), irrSolver).Success? ==>
              ComputeMetrics(prog, Some(t), irrSolver).value.pension == t.firstPension
  {
    SettledPensionRecomputed(prog, t, ComputeMetrics(prog, Some(t), irrSolver));
  }

  lemma SettledPensionRecomputed(prog: Program, t: Trajectory, m: Result<MetricsReport, ProgramError>)
    requires PensionSettled(prog, t)
    requires AnnuityNonZeroAt(prog.input, prog.lifeTable)
    requires m.Success? ==> (m.value.pension.None? <==> prog.lifeTable.None?)
    requires m.Success? && m.value.pension.Some? ==>
               var key := (prog.input.age + prog.input.n, prog.input.sex);
               key in prog.lifeTable.value && m.value.pension.value * prog.lifeTable.value[key] == t.finalAccumulation
    ensures m.Success? ==> m.value.pension == t.firstPension
  {
    if m.Success? && prog.lifeTable.Some? {
      var key := (prog.input.age + prog.input.n, prog.input.sex);
      SameQuotient(m.value.pension.value, t.firstPension.value, prog.lifeTable.value[key], t.finalAccumulation);
    }
  }

  lemma SameQuotient(x: real, y: real, d: real, total: real)
    requires d != 0.0 && x * d == total && y * d == total
    ensures x == y
  {
    assert (x - y) * d == 0.0;
  }

  /** With at least one rate for every working year but the last, the TWR
      loop stays inside the balance path of a successful run. */
  lemma TwrDefinedAfterRun(prog: Program)
    requires CheckInput(prog.input).Pass?
    requires AnnuityNonZeroAt(prog.input, prog.lifeTable)
    requires Run(prog).Success?
    requires |prog.input.rates| + 1 >= prog.input.n
    ensures Metrics.TwrDefined(Run(prog).value.portfolioPath, Run(prog).value.payments)
  {
    RunOutcome(prog);
    var t := Run(prog).value;
    forall i | 1 <= i < |t.payments| - 1
      ensures Metrics.PeriodDefined(t.portfolioPath, t.payments, i)
    {
    }
  }

  /** Without a life table the pension is None, so whenever the salary window
      has a non-zero (or undefined) mean the replacement ratio raises. */
  lemma MetricsWithoutLifeTableRaise(prog: Program, t: Trajectory, irrSolver: seq<real> -> Option<real>)
    requires prog.lifeTable.None?
    requires Metrics.SoundSolver(irrSolver)
    requires Metrics.TwrDefined(t.portfolioPath, t.payments)
    requires var w := Metrics.KzWindow(t.annualSalaries, prog.input.n);
             |w| == 0 || Metrics.MeanMonthly(w) != 0.0
    ensures ComputeMetrics(prog, Some(t), irrSolver) == Failure(NoneOperand)
  {
  }
}
