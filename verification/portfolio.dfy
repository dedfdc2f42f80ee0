/** The portfolio model: weight validation at construction, correlation of
    independent standard-normal draws through a given Cholesky factor, and
    per-simulation weighted aggregation of the asset paths. The factor
    itself and the draws are inputs; `None` for the factor stands for a
    correlation matrix that is not positive-definite. */
module Portfolio {
  import opened RealMath
  import opened Wrappers
  import opened Securities

  type Matrix = seq<seq<real>>

  /** Tolerances of the weight check: an absolute one of 1e-6 and the
      default relative one (1e-5, relative to the target sum 1). */
  const WeightAtol: real := 0.000001
  const WeightRtol: real := 0.00001

  datatype PortfolioError = NotPositiveDefinite | WeightsDoNotSumToOne

  datatype PortfolioModel = PortfolioModel(assets: seq<SecurityParams>, factor: Matrix)

  function Weights(assets: seq<SecurityParams>): seq<real> {
    seq(|assets|, i requires 0 <= i < |assets| => GetWeight(assets[i]))
  }

  function TotalWeight(assets: seq<SecurityParams>): real {
    Sum(Weights(assets))
  }

  /** The closeness test applied to the weight sum. */
  predicate WeightsClose(total: real) {
    Abs(total - 1.0) <= WeightAtol + WeightRtol * Abs(1.0)
  }

  /** Construction: the factorisation runs first, so a bad matrix is reported
      before a bad composition; otherwise the weights must sum to one within
      1.1e-5. */
  function NewPortfolio(assets: seq<SecurityParams>, factor: Option<Matrix>): (r: Result<PortfolioModel, PortfolioError>)
    ensures factor.None? ==> r == Failure(NotPositiveDefinite)
    ensures factor.Some? ==> (r.Success? <==> -0.000011 <= TotalWeight(assets) - 1.0 <= 0.000011)
    ensures factor.Some? && r.Failure? ==> r.error == WeightsDoNotSumToOne
    ensures r.Success? ==> r.value == PortfolioModel(assets, factor.value)
  {
    match factor
    case None => Failure(NotPositiveDefinite)
    case Some(l) =>
      if !WeightsClose(TotalWeight(assets)) then Failure(WeightsDoNotSumToOne)
      else Success(PortfolioModel(assets, l))
  }

  /** k rows of draws per asset, each nSteps long. */
  predicate DrawsShaped(z: Matrix, k: nat, nSteps: nat) {
    |z| == k && forall j :: 0 <= j < |z| ==> |z[j]| == nSteps
  }

  predicate FactorShaped(l: Matrix, k: nat) {
    |l| == k && forall i :: 0 <= i < |l| ==> |l[i]| == k
  }

  /** Every bond needs at least one step. */
  predicate StepsSuffice(assets: seq<SecurityParams>, nSteps: nat) {
    forall i :: 0 <= i < |assets| && assets[i].BondParams? ==> nSteps >= 1
  }

  /** The first k terms of row times column t: sum over j < k of row[j] * z[j][t]. */
  function Combination(row: seq<real>, z: Matrix, t: nat, k: nat): real
    requires k <= |row| && k <= |z|
    requires forall j :: 0 <= j < k ==> t < |z[j]|
  {
    if k == 0 then 0.0 else Combination(row, z, t, k - 1) + row[k - 1] * z[k - 1][t]
  }

  /** The matrix product L @ Z: correlated shock row i is the combination of
      the draw rows with the coefficients of factor row i. */
  function Correlate(l: Matrix, z: Matrix, nSteps: nat): (zc: Matrix)
    requires FactorShaped(l, |z|) && DrawsShaped(z, |z|, nSteps)
    ensures DrawsShaped(zc, |z|, nSteps)
    ensures forall i, t :: 0 <= i < |z| && 0 <= t < nSteps ==> zc[i][t] == Combination(l[i], z, t, |z|)
  {
    seq(|z|, i requires 0 <= i < |z| =>
      seq(nSteps, t requires 0 <= t < nSteps => Combination(l[i], z, t, |z|)))
  }

  function Identity(k: nat): (m: Matrix)
    ensures FactorShaped(m, k)
  {
    seq(k, i requires 0 <= i < k => seq(k, j requires 0 <= j < k => if i == j then 1.0 else 0.0))
  }

  lemma {:induction false} CombinationWithUnitRow(z: Matrix, nSteps: nat, i: nat, t: nat, k: nat)
    requires DrawsShaped(z, |z|, nSteps)
    requires i < |z| && t < nSteps && k <= |z|
    ensures Combination(Identity(|z|)[i], z, t, k) == if i < k then z[i][t] else 0.0
  {
    if k > 0 {
      CombinationWithUnitRow(z, nSteps, i, t, k - 1);
    }
  }

  /** An identity factor (uncorrelated assets) leaves the draws unchanged. */
  lemma IdentityFactorKeepsDraws(z: Matrix, nSteps: nat)
    requires DrawsShaped(z, |z|, nSteps)
    ensures Correlate(Identity(|z|), z, nSteps) == z
  {
    var zc := Correlate(Identity(|z|), z, nSteps);
    forall i | 0 <= i < |z|
      ensures zc[i] == z[i]
    {
      forall t | 0 <= t < nSteps
        ensures zc[i][t] == z[i][t]
      {
        CombinationWithUnitRow(z, nSteps, i, t, |z|);
      }
    }
  }

  /** `column += path * weight`, element-wise. */
  function AddScaled(col: seq<real>, path: seq<real>, w: real): (r: seq<real>)
    requires |path| == |col|
    ensures |r| == |col|
  {
    seq(|col|, t requires 0 <= t < |col| => col[t] + path[t] * w)
  }

  /** Every asset's path, asset i driven by correlated shock row i. */
  function AssetPaths(assets: seq<SecurityParams>, zc: Matrix, nSteps: nat, dt: real, sqrtDt: real): (ps: Matrix)
    requires DrawsShaped(zc, |assets|, nSteps) && StepsSuffice(assets, nSteps)
    ensures DrawsShaped(ps, |assets|, nSteps)
    ensures forall i :: 0 <= i < |assets| ==> ps[i] == SimulatePath(assets[i], zc[i], nSteps, dt, sqrtDt)
  {
    seq(|assets|, i requires 0 <= i < |assets| => SimulatePath(assets[i], zc[i], nSteps, dt, sqrtDt))
  }

  /** A zero column to which the first k weighted paths have been added. */
  function WeightedSum(ps: Matrix, ws: seq<real>, nSteps: nat, k: nat): (col: seq<real>)
    requires k <= |ps| && k <= |ws| && DrawsShaped(ps, |ps|, nSteps)
    ensures |col| == nSteps
  {
    if k == 0 then seq(nSteps, t => 0.0)
    else AddScaled(WeightedSum(ps, ws, nSteps, k - 1), ps[k - 1], ws[k - 1])
  }

  /** Precondition of aggregating one simulation's draws. */
  predicate ColumnDefined(pm: PortfolioModel, z: Matrix, nSteps: nat) {
    FactorShaped(pm.factor, |pm.assets|) && StepsSuffice(pm.assets, nSteps)
    && DrawsShaped(z, |pm.assets|, nSteps)
  }

  /** The portfolio column of one simulation, from that simulation's draws alone. */
  function Column(pm: PortfolioModel, z: Matrix, nSteps: nat, dt: real, sqrtDt: real): (col: seq<real>)
    requires ColumnDefined(pm, z, nSteps)
    ensures |col| == nSteps
  {
    var zc := Correlate(pm.factor, z, nSteps);
    WeightedSum(AssetPaths(pm.assets, zc, nSteps, dt, sqrtDt), Weights(pm.assets), nSteps, |pm.assets|)
  }

  /** Step t of every path times its weight, for the first k assets. */
  function Terms(ps: Matrix, ws: seq<real>, nSteps: nat, t: nat, k: nat): (r: seq<real>)
    requires k <= |ps| && k <= |ws| && DrawsShaped(ps, |ps|, nSteps) && t < nSteps
    ensures |r| == k
  {
    seq(k, i requires 0 <= i < k => ps[i][t] * ws[i])
  }

  /** Each step of the accumulated column is the weight-times-path sum. */
  lemma {:induction false} WeightedSumIsSum(ps: Matrix, ws: seq<real>, nSteps: nat, t: nat, k: nat)
    requires k <= |ps| && k <= |ws| && DrawsShaped(ps, |ps|, nSteps) && t < nSteps
    ensures WeightedSum(ps, ws, nSteps, k)[t] == Sum(Terms(ps, ws, nSteps, t, k))
  {
    if k > 0 {
      WeightedSumIsSum(ps, ws, nSteps, t, k - 1);
      var ts := Terms(ps, ws, nSteps, t, k);
      assert ts[..k - 1] == Terms(ps, ws, nSteps, t, k - 1);
    }
  }

  /** Column s at step t is the sum over the assets of weight times the
      asset's path on row i of that simulation's correlated shocks. */
  lemma ColumnIsWeightedSum(pm: PortfolioModel, z: Matrix, nSteps: nat, dt: real, sqrtDt: real, t: nat)
    requires ColumnDefined(pm, z, nSteps) && t < nSteps
    ensures var ps := AssetPaths(pm.assets, Correlate(pm.factor, z, nSteps), nSteps, dt, sqrtDt);
            Column(pm, z, nSteps, dt, sqrtDt)[t] == Sum(Terms(ps, Weights(pm.assets), nSteps, t, |pm.assets|))
  {
    var ps := AssetPaths(pm.assets, Correlate(pm.factor, z, nSteps), nSteps, dt, sqrtDt);
    WeightedSumIsSum(ps, Weights(pm.assets), nSteps, t, |pm.assets|);
  }

  /** The inner loop of one simulation: add each asset's weighted path to
      a zero column. */
  method AggregateColumn(pm: PortfolioModel, zc: Matrix, nSteps: nat, dt: real, sqrtDt: real)
      returns (col: seq<real>)
    requires DrawsShaped(zc, |pm.assets|, nSteps) && StepsSuffice(pm.assets, nSteps)
    ensures col == WeightedSum(AssetPaths(pm.assets, zc, nSteps, dt, sqrtDt), Weights(pm.assets), nSteps, |pm.assets|)
  {
    ghost var ps := AssetPaths(pm.assets, zc, nSteps, dt, sqrtDt);
    ghost var ws := Weights(pm.assets);
    col := seq(nSteps, t => 0.0);
    var i := 0;
    while i < |pm.assets|
      invariant 0 <= i <= |pm.assets|
      invariant col == WeightedSum(ps, ws, nSteps, i)
    {
      var path := SimulatePath(pm.assets[i], zc[i], nSteps, dt, sqrtDt);
      assert path == ps[i];
      col := AddScaled(col, path, GetWeight(pm.assets[i]));
      i := i + 1;
    }
  }

  /** One simulation: correlate its draws, then aggregate the weighted paths. */
  method SimulateColumn(pm: PortfolioModel, z: Matrix, nSteps: nat, dt: real, sqrtDt: real)
      returns (col: seq<real>)
    requires ColumnDefined(pm, z, nSteps)
    ensures col == Column(pm, z, nSteps, dt, sqrtDt)
  {
    var zc := Correlate(pm.factor, z, nSteps);
    col := AggregateColumn(pm, zc, nSteps, dt, sqrtDt);
  }

  /** Rows of the result are steps, columns are simulations. */
  function Transpose(columns: Matrix, nSteps: nat): (m: Matrix)
    requires forall s :: 0 <= s < |columns| ==> |columns[s]| == nSteps
    ensures |m| == nSteps
    ensures forall t :: 0 <= t < nSteps ==> |m[t]| == |columns|
    ensures forall t, s :: 0 <= t < nSteps && 0 <= s < |columns| ==> m[t][s] == columns[s][t]
  {
    seq(nSteps, t requires 0 <= t < nSteps =>
      seq(|columns|, s requires 0 <= s < |columns| => columns[s][t]))
  }

  /** What the Monte-Carlo loop needs: a square factor, enough steps for
      every bond, and a k by nSteps block of draws per simulation. */
  predicate SimulationDefined(pm: PortfolioModel, draws: seq<Matrix>, nSteps: nat) {
    FactorShaped(pm.factor, |pm.assets|) && StepsSuffice(pm.assets, nSteps)
    && forall s :: 0 <= s < |draws| ==> DrawsShaped(draws[s], |pm.assets|, nSteps)
  }

  /** The simulations one by one, each column from its own draws. */
  method SimulateColumns(pm: PortfolioModel, draws: seq<Matrix>, nSteps: nat, dt: real, sqrtDt: real)
      returns (columns: Matrix)
    requires SimulationDefined(pm, draws, nSteps)
    ensures |columns| == |draws|
    ensures forall s :: 0 <= s < |draws| ==> |columns[s]| == nSteps
    ensures forall s :: 0 <= s < |draws| ==> columns[s] == Column(pm, draws[s], nSteps, dt, sqrtDt)
  {
    columns := [];
    var s := 0;
    while s < |draws|
      invariant 0 <= s <= |draws|
      invariant |columns| == s
      invariant forall s' :: 0 <= s' < s ==> columns[s'] == Column(pm, draws[s'], nSteps, dt, sqrtDt)
    {
      var col := SimulateColumn(pm, draws[s], nSteps, dt, sqrtDt);
      columns := columns + [col];
      s := s + 1;
    }
  }

  /** The Monte-Carlo loop: an nSteps by nSims matrix whose column s is built,
      starting from zero, from the draws of simulation s only. */
  method Simulate(pm: PortfolioModel, draws: seq<Matrix>, nSteps: nat, dt: real, sqrtDt: real)
      returns (values: Matrix)
    requires SimulationDefined(pm, draws, nSteps)
    ensures |values| == nSteps
    ensures forall t :: 0 <= t < nSteps ==> |values[t]| == |draws|
    ensures forall t, s :: 0 <= t < nSteps && 0 <= s < |draws| ==>
              values[t][s] == Column(pm, draws[s], nSteps, dt, sqrtDt)[t]
  {
    var columns := SimulateColumns(pm, draws, nSteps, dt, sqrtDt);
    values := Transpose(columns, nSteps);
  }
}
