/** Single-asset path generators. A stock emits the trailing one-year
    compounded return of a daily return process; a bond emits a
    mean-reverting yield path. The step size dt, its square root and the
    step count int(n_years / dt) are inputs: the square root and the
    float-to-int conversion are not computed here. */
module Securities {
  import opened RealMath

  /** Parameters of one asset. Every kind carries its portfolio weight and
      its volatility sigma; a stock adds its drift, a bond its mean-reversion
      speed a, long-run mean b and initial yield y0. */
  datatype SecurityParams =
    | StockParams(weight: real, sigma: real, mu: real)
    | BondParams(weight: real, sigma: real, a: real, b: real, y0: real)

  /** The asset's share of portfolio capital. */
  function GetWeight(p: SecurityParams): real {
    p.weight
  }

  /** Trading days in the rolling window of the stock overlay. */
  const TradingWindow: nat := 252

  /** Per-step stock returns; only the first nSteps shocks are read (fewer
      when fewer are supplied, as a slice would give). */
  function StepReturns(mu: real, sigma: real, shocks: seq<real>, nSteps: nat, dt: real, sqrtDt: real): (r: seq<real>)
    ensures |r| == MinNat(nSteps, |shocks|)
    ensures forall t :: 0 <= t < |r| ==> r[t] == mu * dt + sigma * sqrtDt * shocks[t]
  {
    seq(MinNat(nSteps, |shocks|), t requires 0 <= t < MinNat(nSteps, |shocks|) => mu * dt + sigma * sqrtDt * shocks[t])
  }

  /** Trailing compounded return over a full window; an incomplete window
      yields NaN in the source, which is then mapped to 0. */
  function RollingReturn(r: seq<real>): (out: seq<real>)
    ensures |out| == |r|
    ensures forall t :: 0 <= t < |r| && t + 1 < TradingWindow ==> out[t] == 0.0
    ensures forall t :: TradingWindow <= t + 1 <= |r| ==>
              out[t] == GrowthProduct(r, t + 1 - TradingWindow, t + 1) - 1.0
  {
    seq(|r|, t requires 0 <= t < |r| =>
      if t + 1 < TradingWindow then 0.0 else GrowthProduct(r, t + 1 - TradingWindow, t + 1) - 1.0)
  }

  /** The window slides by one step: the new compounded growth is the old
      one with the oldest factor removed and the newest added. */
  lemma RollingReturnSlides(r: seq<real>, t: nat)
    requires TradingWindow <= t + 1 && t + 1 < |r|
    ensures (RollingReturn(r)[t + 1] + 1.0) * (1.0 + r[t + 1 - TradingWindow])
         == (RollingReturn(r)[t] + 1.0) * (1.0 + r[t + 1])
  {
    var lo := t + 1 - TradingWindow;
    assert GrowthProduct(r, lo, t + 2) == Mul(GrowthProduct(r, lo, t + 1), 1.0 + r[t + 1]);
    GrowthProductPrepend(r, lo, t + 2);
  }

  /** A return stream that is identically zero compounds to a zero path. */
  lemma RollingReturnOfZeros(r: seq<real>)
    requires forall k :: 0 <= k < |r| ==> r[k] == 0.0
    ensures forall t :: 0 <= t < |r| ==> RollingReturn(r)[t] == 0.0
  {
    forall t | TradingWindow <= t + 1 <= |r|
      ensures RollingReturn(r)[t] == 0.0
    {
      GrowthProductOfZeros(r, t + 1 - TradingWindow, t + 1);
    }
  }

  /** The stock path: rolling one-year compounded return of the step returns. */
  function StockPath(mu: real, sigma: real, shocks: seq<real>, nSteps: nat, dt: real, sqrtDt: real): (path: seq<real>)
    ensures |path| == MinNat(nSteps, |shocks|)
    ensures nSteps < TradingWindow ==> forall t :: 0 <= t < |path| ==> path[t] == 0.0
  {
    RollingReturn(StepReturns(mu, sigma, shocks, nSteps, dt, sqrtDt))
  }

  /** One Euler step of the mean-reverting yield. */
  function BondStep(a: real, b: real, sigma: real, y: real, shock: real, dt: real, sqrtDt: real): real {
    y + a * (b - y) * dt + sigma * sqrtDt * shock
  }

  /** The first k yields of the bond path; shock 0 is never read. */
  function BondPrefix(a: real, b: real, sigma: real, y0: real, shocks: seq<real>, k: nat, dt: real, sqrtDt: real): (y: seq<real>)
    requires k >= 1 && (k == 1 || k <= |shocks|)
    ensures |y| == k && y[0] == y0
    ensures forall t :: 1 <= t < k ==> y[t] == BondStep(a, b, sigma, y[t - 1], shocks[t], dt, sqrtDt)
  {
    if k == 1 then [y0]
    else
      var prev := BondPrefix(a, b, sigma, y0, shocks, k - 1, dt, sqrtDt);
      prev + [BondStep(a, b, sigma, prev[k - 2], shocks[k - 1], dt, sqrtDt)]
  }

  /** What the bond simulation needs of its inputs: at least one step (index
      0 is written unconditionally) and a shock for every later step. */
  predicate BondDefined(shocks: seq<real>, nSteps: nat) {
    nSteps >= 1 && (nSteps == 1 || nSteps <= |shocks|)
  }

  function BondPath(a: real, b: real, sigma: real, y0: real, shocks: seq<real>, nSteps: nat, dt: real, sqrtDt: real): (y: seq<real>)
    requires BondDefined(shocks, nSteps)
    ensures |y| == nSteps && y[0] == y0
    ensures forall t :: 1 <= t < nSteps ==>
              y[t] == y[t - 1] + a * (b - y[t - 1]) * dt + sigma * sqrtDt * shocks[t]
  {
    BondPrefix(a, b, sigma, y0, shocks, nSteps, dt, sqrtDt)
  }

  /** Two shock streams that differ only at index 0 give the same yields. */
  lemma {:induction false} BondIgnoresFirstShock(a: real, b: real, sigma: real, y0: real, s1: seq<real>, s2: seq<real>, nSteps: nat, dt: real, sqrtDt: real)
    requires BondDefined(s1, nSteps) && BondDefined(s2, nSteps)
    requires forall t :: 1 <= t < nSteps ==> s1[t] == s2[t]
    ensures BondPath(a, b, sigma, y0, s1, nSteps, dt, sqrtDt) == BondPath(a, b, sigma, y0, s2, nSteps, dt, sqrtDt)
  {
    if nSteps > 1 {
      BondIgnoresFirstShock(a, b, sigma, y0, s1, s2, nSteps - 1, dt, sqrtDt);
    }
  }

  /** Without volatility the distance to the long-run mean shrinks
      geometrically by the factor 1 - a*dt per step. */
  lemma {:induction false} BondDeterministicDecay(a: real, b: real, y0: real, shocks: seq<real>, nSteps: nat, dt: real, sqrtDt: real, t: nat)
    requires BondDefined(shocks, nSteps)
    requires t < nSteps
    ensures BondPath(a, b, 0.0, y0, shocks, nSteps, dt, sqrtDt)[t] - b == Pow(1.0 - a * dt, t) * (y0 - b)
  {
    if t == 0 {
      DecayStart(a, b, y0, shocks, nSteps, dt, sqrtDt);
    } else {
      BondDeterministicDecay(a, b, y0, shocks, nSteps, dt, sqrtDt, t - 1);
      DecayStep(a, b, y0, shocks, nSteps, dt, sqrtDt, t);
    }
  }

  lemma DecayStart(a: real, b: real, y0: real, shocks: seq<real>, nSteps: nat, dt: real, sqrtDt: real)
    requires BondDefined(shocks, nSteps)
    ensures BondPath(a, b, 0.0, y0, shocks, nSteps, dt, sqrtDt)[0] - b == Pow(1.0 - a * dt, 0) * (y0 - b)
  {
  }

  lemma DecayStep(a: real, b: real, y0: real, shocks: seq<real>, nSteps: nat, dt: real, sqrtDt: real, t: nat)
    requires BondDefined(shocks, nSteps)
    requires 1 <= t < nSteps
    requires BondPath(a, b, 0.0, y0, shocks, nSteps, dt, sqrtDt)[t - 1] - b == Pow(1.0 - a * dt, t - 1) * (y0 - b)
    ensures BondPath(a, b, 0.0, y0, shocks, nSteps, dt, sqrtDt)[t] - b == Pow(1.0 - a * dt, t) * (y0 - b)
  {
    var y := BondPath(a, b, 0.0, y0, shocks, nSteps, dt, sqrtDt);
    NoiselessPathStep(a, b, y0, shocks, nSteps, dt, sqrtDt, t);
    ScaleByPow(1.0 - a * dt, t, y[t - 1] - b, y0 - b);
  }

  lemma NoiselessPathStep(a: real, b: real, y0: real, shocks: seq<real>, nSteps: nat, dt: real, sqrtDt: real, t: nat)
    requires BondDefined(shocks, nSteps)
    requires 1 <= t < nSteps
    ensures var y := BondPath(a, b, 0.0, y0, shocks, nSteps, dt, sqrtDt);
            y[t] - b == (y[t - 1] - b) * (1.0 - a * dt)
  {
    var y := BondPath(a, b, 0.0, y0, shocks, nSteps, dt, sqrtDt);
    assert y[t] == BondStep(a, b, 0.0, y[t - 1], shocks[t], dt, sqrtDt);
    NoiselessStepShrinks(a, b, y[t - 1], shocks[t], dt, sqrtDt);
  }

  lemma NoiselessStepShrinks(a: real, b: real, y: real, shock: real, dt: real, sqrtDt: real)
    ensures BondStep(a, b, 0.0, y, shock, dt, sqrtDt) - b == (y - b) * (1.0 - a * dt)
  {
  }

  lemma ScaleByPow(x: real, t: nat, d: real, d0: real)
    requires t >= 1
    requires d == Pow(x, t - 1) * d0
    ensures d * x == Pow(x, t) * d0
  {
  }

  /** A bond that starts at its long-run mean and has no volatility stays there. */
  lemma BondAtMeanStays(a: real, b: real, shocks: seq<real>, nSteps: nat, dt: real, sqrtDt: real)
    requires BondDefined(shocks, nSteps)
    ensures forall t :: 0 <= t < nSteps ==> BondPath(a, b, 0.0, b, shocks, nSteps, dt, sqrtDt)[t] == b
  {
    forall t | 0 <= t < nSteps
      ensures BondPath(a, b, 0.0, b, shocks, nSteps, dt, sqrtDt)[t] == b
    {
      BondDeterministicDecay(a, b, b, shocks, nSteps, dt, sqrtDt, t);
    }
  }

  /** What `simulate_path` needs of its inputs, per asset kind. */
  predicate PathDefined(p: SecurityParams, shocks: seq<real>, nSteps: nat) {
    p.BondParams? ==> BondDefined(shocks, nSteps)
  }

  /** The `simulate_path` interface: dispatch on the asset kind. */
  function SimulatePath(p: SecurityParams, shocks: seq<real>, nSteps: nat, dt: real, sqrtDt: real): (path: seq<real>)
    requires PathDefined(p, shocks, nSteps)
    ensures |path| == if p.StockParams? then MinNat(nSteps, |shocks|) else nSteps
    ensures p.BondParams? ==> path[0] == p.y0
  {
    match p
    case StockParams(_, sigma, mu) => StockPath(mu, sigma, shocks, nSteps, dt, sqrtDt)
    case BondParams(_, sigma, a, b, y0) => BondPath(a, b, sigma, y0, shocks, nSteps, dt, sqrtDt)
  }
}
