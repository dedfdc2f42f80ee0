/** The metrics of a finished trajectory. NaN results are `None`; the IRR
    root-finder is a parameter (its failure is `None`), and of the
    time-weighted return only the compounded growth and the period count
    are computed, not the final root. */
module Metrics {
  import opened RealMath
  import opened Wrappers

  /** Arithmetic on Python's `None` raises a TypeError. */
  datatype MetricError = NoneOperand

  /** Savings: the final accumulation itself. */
  function SavingsMetric(finalAccumulation: real): real {
    finalAccumulation
  }

  /** Return on investment, NaN when nothing was paid in. */
  function RoiMetric(finalAccumulation: real, totalPayments: real): (r: Option<real>)
    ensures r.None? <==> totalPayments == 0.0
    ensures r.Some? ==> r.value * totalPayments == finalAccumulation - totalPayments
  {
    if totalPayments == 0.0 then None
    else Some((finalAccumulation - totalPayments) / totalPayments)
  }

  /** With a positive total, the return is positive exactly when the final
      accumulation exceeds what was paid in. */
  lemma RoiPositiveIffGain(finalAccumulation: real, totalPayments: real)
    requires totalPayments > 0.0
    ensures RoiMetric(finalAccumulation, totalPayments).Some?
    ensures RoiMetric(finalAccumulation, totalPayments).value > 0.0 <==> finalAccumulation > totalPayments
  {
    var r := RoiMetric(finalAccumulation, totalPayments).value;
    assert r * totalPayments == finalAccumulation - totalPayments;
    if r > 0.0 {
      assert r * totalPayments > 0.0;
    } else {
      assert r * totalPayments <= 0.0;
    }
  }

  /** `payments[:len(payments) - 1]`: everything but the last entry. */
  function DropLast(s: seq<real>): (r: seq<real>)
    ensures |s| >= 1 ==> r == s[..|s| - 1]
    ensures |s| == 0 ==> r == []
  {
    if |s| == 0 then [] else s[..|s| - 1]
  }

  /** The IRR cash flows: every payment but the last as an outflow, then the
      final accumulation as the single inflow. */
  function IrrCashFlows(payments: seq<real>, finalAccumulation: real): (cf: seq<real>)
    ensures |cf| == if |payments| == 0 then 1 else |payments|
    ensures forall i :: 0 <= i < |payments| - 1 ==> cf[i] == -payments[i]
    ensures cf[|cf| - 1] == finalAccumulation
  {
    var outflows := DropLast(payments);
    seq(|outflows|, i requires 0 <= i < |outflows| => -outflows[i]) + [finalAccumulation]
  }

  /** A root-finder that reports only roots: a rate it returns makes the
      future value of the cash flows zero. `numpy_financial.irr` returns a
      root of the net present value or NaN, and at any rate other than -1
      the two vanish together. */
  ghost predicate SoundSolver(solver: seq<real> -> Option<real>) {
    forall cf :: solver(cf).Some? ==> FutureValue(cf, solver(cf).value) == 0.0
  }

  /** Internal rate of return through a given root-finder; its failure is NaN.
      The contract only carries the root-finder's promise over to these cash
      flows; `FutureValue` defines what a root is, and `IrrRoundTrip` shows
      which rate is the root for a single payment grown at that rate. */
  function IrrMetric(payments: seq<real>, finalAccumulation: real, solver: seq<real> -> Option<real>): (r: Option<real>)
    requires SoundSolver(solver)
    ensures r.Some? ==> FutureValue(IrrCashFlows(payments, finalAccumulation), r.value) == 0.0
  {
    solver(IrrCashFlows(payments, finalAccumulation))
  }

  /** Value of the cash flows carried forward to the last period at rate x
      (Horner form of the sum of cf[i] * (1 + x)^(|cf| - 1 - i)); an IRR is a
      root of it. */
  function FutureValue(cf: seq<real>, x: real): real {
    if |cf| == 0 then 0.0 else Mul(FutureValue(cf[..|cf| - 1], x), 1.0 + x) + cf[|cf| - 1]
  }

  lemma {:induction false} FutureValueOfSingleOutflow(p: real, x: real, m: nat)
    ensures FutureValue([-p] + Zeros(m), x) == -p * Pow(1.0 + x, m)
  {
    if m > 0 {
      FutureValueOfSingleOutflow(p, x, m - 1);
      var cf := [-p] + Zeros(m);
      assert cf[..|cf| - 1] == [-p] + Zeros(m - 1);
      assert cf[|cf| - 1] == 0.0;
      assert FutureValue(cf, x) == Mul(FutureValue([-p] + Zeros(m - 1), x), 1.0 + x);
      CarryOutflow(p, 1.0 + x, Pow(1.0 + x, m - 1));
    } else {
      assert ([-p] + Zeros(0))[..0] == [];
    }
  }

  lemma CarryOutflow(p: real, factor: real, g: real)
    ensures Mul(-p * g, factor) == -p * Mul(factor, g)
  {
  }

  /** One payment p followed by n empty years and a final accumulation of
      p * (1 + x)^n gives cash flows whose IRR root is x. */
  lemma IrrRoundTrip(p: real, x: real, n: nat, finalAccumulation: real)
    requires n >= 1
    requires finalAccumulation == p * Pow(1.0 + x, n)
    ensures FutureValue(IrrCashFlows([p] + Zeros(n), finalAccumulation), x) == 0.0
  {
    var cf := IrrCashFlows([p] + Zeros(n), finalAccumulation);
    SinglePaymentCashFlows(p, n, finalAccumulation);
    OutflowCancels(p, x, n, finalAccumulation);
  }

  /** The cash flows of a single payment: the outflow and n - 1 empty years,
      then the final accumulation. */
  lemma SinglePaymentCashFlows(p: real, n: nat, finalAccumulation: real)
    requires n >= 1
    ensures var cf := IrrCashFlows([p] + Zeros(n), finalAccumulation);
            cf[..|cf| - 1] == [-p] + Zeros(n - 1) && cf[|cf| - 1] == finalAccumulation
  {
    var cf := IrrCashFlows([p] + Zeros(n), finalAccumulation);
    assert cf[..|cf| - 1] == [-p] + Zeros(n - 1);
  }

  /** The outflow carried forward n years cancels the final accumulation. */
  lemma OutflowCancels(p: real, x: real, n: nat, finalAccumulation: real)
    requires n >= 1
    requires finalAccumulation == p * Pow(1.0 + x, n)
    ensures Mul(FutureValue([-p] + Zeros(n - 1), x), 1.0 + x) + finalAccumulation == 0.0
  {
    FutureValueOfSingleOutflow(p, x, n - 1);
    var g := Pow(1.0 + x, n - 1);
    assert Pow(1.0 + x, n) == Mul(1.0 + x, g);
  }

  /** Number of TWR sub-periods: `r0` and then one per index 1 .. n - 1, with
      n = len(payments) - 1. */
  function TwrCount(payments: seq<real>): nat {
    if |payments| <= 2 then 1 else |payments| - 1
  }

  /** The indexing the TWR loop performs without raising: `payments[0]`, then
      `path[0]` when it divides, and for each later period `path[i - 1]`
      always and `path[i]` only when the period's base is non-zero. */
  predicate TwrDefined(path: seq<real>, payments: seq<real>) {
    && |payments| >= 1
    && (payments[0] != 0.0 ==> |path| >= 1)
    && forall i :: 1 <= i < |payments| - 1 ==> PeriodDefined(path, payments, i)
  }

  predicate PeriodDefined(path: seq<real>, payments: seq<real>, i: nat)
    requires 1 <= i < |payments|
  {
    i - 1 < |path| && (path[i - 1] + payments[i] != 0.0 ==> i < |path|)
  }

  /** Sub-period return i: balance over the period's base (previous balance
      plus the period's payment), 0 when the base is 0. */
  function SubReturn(path: seq<real>, payments: seq<real>, i: nat): real
    requires TwrDefined(path, payments) && i < TwrCount(payments)
  {
    if i == 0 then
      (if payments[0] == 0.0 then 0.0 else path[0] / payments[0] - 1.0)
    else
      assert PeriodDefined(path, payments, i);
      var base := path[i - 1] + payments[i];
      if base == 0.0 then 0.0 else path[i] / base - 1.0
  }

  /** The TWR sub-returns. The list always holds `r0`, so the NaN branch of
      the metric cannot be reached. */
  function TwrSubReturns(path: seq<real>, payments: seq<real>): (r: seq<real>)
    requires TwrDefined(path, payments)
    ensures |r| >= 1
    ensures |r| == if |payments| <= 2 then 1 else |payments| - 1
    ensures forall i :: 0 <= i < |r| ==> r[i] == SubReturn(path, payments, i)
  {
    seq(TwrCount(payments), i requires 0 <= i < TwrCount(payments) => SubReturn(path, payments, i))
  }

  /** The compounded growth over the sub-periods; the metric itself is its
      |r|-th root minus one. */
  function TwrGrowth(path: seq<real>, payments: seq<real>): (g: real)
    requires TwrDefined(path, payments)
    ensures (forall i :: 0 <= i < TwrCount(payments) ==> SubReturn(path, payments, i) >= 0.0) ==> g >= 1.0
  {
    var r := TwrSubReturns(path, payments);
    GrowthProductAtLeastOne(r, 0, |r|);
    GrowthProduct(r, 0, |r|)
  }

  /** When money enters only in period 0 and no intermediate balance is zero,
      the chained sub-returns telescope to the growth of the balance over the
      initial payment. */
  lemma {:induction false} TwrTelescopes(path: seq<real>, payments: seq<real>, k: nat)
    requires TwrDefined(path, payments)
    requires payments[0] != 0.0
    requires forall i :: 1 <= i < |payments| ==> payments[i] == 0.0
    requires 1 <= k <= TwrCount(payments) && k <= |path|
    requires forall i :: 0 <= i < k - 1 ==> path[i] != 0.0
    ensures GrowthProduct(TwrSubReturns(path, payments), 0, k) == path[k - 1] / payments[0]
  {
    if k == 1 {
      TwrFirstPeriod(path, payments);
    } else {
      TwrTelescopes(path, payments, k - 1);
      TwrNextPeriod(path, payments, k);
    }
  }

  lemma TwrFirstPeriod(path: seq<real>, payments: seq<real>)
    requires TwrDefined(path, payments)
    requires payments[0] != 0.0
    ensures GrowthProduct(TwrSubReturns(path, payments), 0, 1) == path[0] / payments[0]
  {
    var r := TwrSubReturns(path, payments);
    assert GrowthProduct(r, 0, 1) == Mul(1.0, 1.0 + r[0]);
    SubReturnRatio(path[0], payments[0]);
  }

  lemma TwrNextPeriod(path: seq<real>, payments: seq<real>, k: nat)
    requires TwrDefined(path, payments)
    requires payments[0] != 0.0
    requires forall i :: 1 <= i < |payments| ==> payments[i] == 0.0
    requires 2 <= k <= TwrCount(payments) && k <= |path|
    requires path[k - 2] != 0.0
    requires GrowthProduct(TwrSubReturns(path, payments), 0, k - 1) == path[k - 2] / payments[0]
    ensures GrowthProduct(TwrSubReturns(path, payments), 0, k) == path[k - 1] / payments[0]
  {
    var r := TwrSubReturns(path, payments);
    assert GrowthProduct(r, 0, k) == Mul(GrowthProduct(r, 0, k - 1), 1.0 + r[k - 1]);
    assert r[k - 1] == SubReturn(path, payments, k - 1);
    assert payments[k - 1] == 0.0;
    assert path[k - 2] + payments[k - 1] == path[k - 2];
    SubReturnRatio(path[k - 1], path[k - 2]);
    RatioChain(path[k - 2], path[k - 1], payments[0]);
  }

  lemma SubReturnRatio(balance: real, base: real)
    requires base != 0.0
    ensures 1.0 + (balance / base - 1.0) == balance / base
  {
  }

  lemma RatioChain(mid: real, last: real, first: real)
    requires mid != 0.0 && first != 0.0
    ensures (mid / first) * (last / mid) == last / first
  {
  }

  /** The whole-horizon corollary. */
  lemma TwrSinglePaymentGrowth(path: seq<real>, payments: seq<real>)
    requires TwrDefined(path, payments)
    requires payments[0] != 0.0
    requires forall i :: 1 <= i < |payments| ==> payments[i] == 0.0
    requires TwrCount(payments) <= |path|
    requires forall i :: 0 <= i < TwrCount(payments) - 1 ==> path[i] != 0.0
    ensures TwrGrowth(path, payments) == path[TwrCount(payments) - 1] / payments[0]
  {
    var r := TwrSubReturns(path, payments);
    TwrTelescopes(path, payments, |r|);
  }

  /** Python's normalisation of a slice bound against a sequence length. */
  function SliceBound(i: int, len: nat): (b: nat)
    ensures b <= len
  {
    if i < 0 then (if len + i < 0 then 0 else len + i)
    else if i > len then len else i
  }

  /** `annual[-(n + 1):-1]`, the salaries the replacement ratio averages. */
  function KzWindow(salaries: seq<real>, n: nat): (w: seq<real>)
    ensures |salaries| >= n + 1 ==> w == salaries[|salaries| - (n + 1) .. |salaries| - 1]
    ensures 1 <= |salaries| <= n + 1 ==> w == salaries[..|salaries| - 1]
    ensures |salaries| == 0 ==> w == []
  {
    var lo := SliceBound(-(n + 1), |salaries|);
    var hi := SliceBound(-1, |salaries|);
    if lo < hi then salaries[lo..hi] else []
  }

  /** With the plugin's n + 1 salaries the window is the n working years. */
  lemma KzWindowIsWorkingYears(salaries: seq<real>, n: nat)
    requires |salaries| == n + 1
    ensures KzWindow(salaries, n) == salaries[..n]
  {
  }

  /** Mean monthly salary over a non-empty window. */
  function MeanMonthly(w: seq<real>): real
    requires |w| >= 1
  {
    Sum(w) / (12.0 * |w| as real)
  }

  /** Replacement ratio: pension over mean monthly salary, NaN when that mean
      is 0. The mean of an empty window is NaN, which is not 0, so the
      division still happens; dividing `None` raises. */
  function KzMetric(pension: Option<real>, salaries: seq<real>, n: nat): (r: Result<Option<real>, MetricError>)
    ensures var w := KzWindow(salaries, n);
            |w| >= 1 && MeanMonthly(w) == 0.0 ==> r == Success(None)
    ensures var w := KzWindow(salaries, n);
            r.Failure? <==> pension.None? && (|w| == 0 || MeanMonthly(w) != 0.0)
    ensures r.Success? && r.value.Some? ==>
              pension.Some? && |KzWindow(salaries, n)| >= 1
              && r.value.value * MeanMonthly(KzWindow(salaries, n)) == pension.value
  {
    var w := KzWindow(salaries, n);
    if |w| == 0 then
      (if pension.None? then Failure(NoneOperand) else Success(None))
    else
      var avg := MeanMonthly(w);
      if avg == 0.0 then Success(None)
      else if pension.None? then Failure(NoneOperand)
      else Success(Some(pension.value / avg))
  }

  /** First pension payment: None exactly when there is no annuity figure. */
  function PensionMetric(finalAccumulation: real, annuityMonths: Option<real>): (r: Option<real>)
    requires annuityMonths.Some? ==> annuityMonths.value != 0.0
    ensures r.None? <==> annuityMonths.None?
    ensures r.Some? ==> r.value * annuityMonths.value == finalAccumulation
  {
    match annuityMonths
    case None => None
    case Some(m) => Some(finalAccumulation / m)
  }
}
