/** `sobol_bootstrap`: the point estimates of the first- and total-order
    Sobol indices of every parameter, and bootstrap confidence intervals for
    them computed from resampled Monte Carlo rows.

    The random index matrix `r = np.random.randint(n_mc, size=(n_mc,
    n_bootstrap))` and the percentile routine `confidence_interval` are given
    as parameters. */
module Bootstrap {
  import opened Wrappers
  import opened Statistics
  import opened Decomposition
  import opened Estimators

  /** Above this many gathered values the resampling is done one bootstrap
      replicate at a time instead of all at once. */
  const VectorisedLimit: nat := 10000000

  /** The strategy test `n_mc * n_bootstrap * n_qoi <= 10**7`. */
  predicate UseVectorised(nMc: nat, nBootstrap: nat, nQoi: nat) {
    nMc * nBootstrap * nQoi <= VectorisedLimit
  }

  /** `r` has the shape and range of `np.random.randint(n_mc, size=(n_mc,
      n_bootstrap))`: `n_mc` rows of `n_bootstrap` indices in `[0, n_mc)`. */
  predicate DrawnIndices(r: seq<seq<int>>, nMc: nat, nBootstrap: nat) {
    && |r| == nMc
    && (forall k :: 0 <= k < nMc ==> |r[k]| == nBootstrap)
    && (forall k, b :: 0 <= k < nMc && 0 <= b < nBootstrap ==> 0 <= r[k][b] < nMc)
  }

  /** `f[r][:, b]`: the rows of `f` that bootstrap replicate `b` draws, one
      per row of `r`. */
  function Resample(f: seq<Eval>, r: seq<seq<int>>, nBootstrap: nat, b: nat): (g: seq<Eval>)
    requires DrawnIndices(r, |f|, nBootstrap) && b < nBootstrap
    ensures |g| == |f|
    ensures forall k :: 0 <= k < |f| ==> g[k] == f[r[k][b]]
  {
    seq(|f|, k requires 0 <= k < |f| => f[r[k][b]])
  }

  lemma ResampleShape(f: seq<Eval>, r: seq<seq<int>>, nBootstrap: nat, b: nat, w: nat)
    requires DrawnIndices(r, |f|, nBootstrap) && b < nBootstrap && Uniform(f, w)
    ensures Uniform(Resample(f, r, nBootstrap, b), w)
  {
  }

  /** The three parts that the estimators of parameter `j` read. */
  predicate Estimable(m2: seq<Eval>, m1: seq<Eval>, ni: seq<Eval>, w: nat, r: seq<seq<int>>, nBootstrap: nat) {
    SameShape(m2, m1, ni, w) && DrawnIndices(r, |m2|, nBootstrap)
  }

  /** Replicate `b` of the first-order index: the estimator applied to the
      rows that column `b` of `r` draws. */
  function FirstReplicate(m2: seq<Eval>, m1: seq<Eval>, ni: seq<Eval>, w: nat, r: seq<seq<int>>, nBootstrap: nat, b: nat): (e: Eval)
    requires Estimable(m2, m1, ni, w, r, nBootstrap) && b < nBootstrap
    ensures |e| == w
  {
    ResampleShape(m2, r, nBootstrap, b, w);
    ResampleShape(m1, r, nBootstrap, b, w);
    ResampleShape(ni, r, nBootstrap, b, w);
    FirstOrderVec(Resample(m2, r, nBootstrap, b), Resample(m1, r, nBootstrap, b), Resample(ni, r, nBootstrap, b), w)
  }

  /** Replicate `b` of the total-order index. */
  function TotalReplicate(m2: seq<Eval>, m1: seq<Eval>, ni: seq<Eval>, w: nat, r: seq<seq<int>>, nBootstrap: nat, b: nat): (e: Eval)
    requires Estimable(m2, m1, ni, w, r, nBootstrap) && b < nBootstrap
    ensures |e| == w
  {
    ResampleShape(m2, r, nBootstrap, b, w);
    ResampleShape(m1, r, nBootstrap, b, w);
    ResampleShape(ni, r, nBootstrap, b, w);
    TotalOrderVec(Resample(m2, r, nBootstrap, b), Resample(m1, r, nBootstrap, b), Resample(ni, r, nBootstrap, b), w)
  }

  /** The vectorised branch, `_first_order(f_M2[r], f_M1[r], f_Ni[r, j])`:
      numpy reduces the gathered `(n_mc, n_bootstrap, n_qoi)` arrays over
      their first axis, which gives one replicate per column of `r`. */
  function FirstReplicates(m2: seq<Eval>, m1: seq<Eval>, ni: seq<Eval>, w: nat, r: seq<seq<int>>, nBootstrap: nat): (s: seq<Eval>)
    requires Estimable(m2, m1, ni, w, r, nBootstrap)
    ensures |s| == nBootstrap
  {
    seq(nBootstrap, b requires 0 <= b < nBootstrap => FirstReplicate(m2, m1, ni, w, r, nBootstrap, b))
  }

  /** `_total_order(f_M2[r], f_M1[r], f_Ni[r, j])`. */
  function TotalReplicates(m2: seq<Eval>, m1: seq<Eval>, ni: seq<Eval>, w: nat, r: seq<seq<int>>, nBootstrap: nat): (s: seq<Eval>)
    requires Estimable(m2, m1, ni, w, r, nBootstrap)
    ensures |s| == nBootstrap
  {
    seq(nBootstrap, b requires 0 <= b < nBootstrap => TotalReplicate(m2, m1, ni, w, r, nBootstrap, b))
  }

  /** Every resampled total-order index is non-negative, like the point
      estimate. */
  lemma TotalReplicatesNonnegative(m2: seq<Eval>, m1: seq<Eval>, ni: seq<Eval>, w: nat, r: seq<seq<int>>, nBootstrap: nat)
    requires Estimable(m2, m1, ni, w, r, nBootstrap)
    ensures forall b, e :: 0 <= b < nBootstrap && 0 <= e < w ==> TotalReplicates(m2, m1, ni, w, r, nBootstrap)[b][e] >= 0.0
  {
    forall b | 0 <= b < nBootstrap
      ensures forall e :: 0 <= e < w ==> TotalReplicates(m2, m1, ni, w, r, nBootstrap)[b][e] >= 0.0
    {
      ResampleShape(m2, r, nBootstrap, b, w);
      ResampleShape(m1, r, nBootstrap, b, w);
      ResampleShape(ni, r, nBootstrap, b, w);
      TotalOrderVecNonnegative(Resample(m2, r, nBootstrap, b), Resample(m1, r, nBootstrap, b), Resample(ni, r, nBootstrap, b), w);
    }
  }

  /** `f[row]`: the rows of `f` that one row of `r` names. */
  function RowResample(f: seq<Eval>, row: seq<int>): (g: seq<Eval>)
    requires forall c :: 0 <= c < |row| ==> 0 <= row[c] < |f|
    ensures |g| == |row| && forall c :: 0 <= c < |row| ==> g[c] == f[row[c]]
  {
    seq(|row|, c requires 0 <= c < |row| => f[row[c]])
  }

  /** The sequential branch as the source writes it: replicate `i` resamples
      with ROW `r[i]` (`n_bootstrap` indices) instead of column `r[:, i]`,
      and `r[i]` raises `IndexError` once `i` reaches `n_mc`. The pair holds
      the first- and total-order replicates. */
  function SequentialAsWritten(m2: seq<Eval>, m1: seq<Eval>, ni: seq<Eval>, w: nat, r: seq<seq<int>>, nBootstrap: nat): (res: Result<(seq<Eval>, seq<Eval>)>)
    requires Estimable(m2, m1, ni, w, r, nBootstrap)
    ensures res.Ok? ==> |res.value.0| == nBootstrap && |res.value.1| == nBootstrap
  {
    if nBootstrap > |r| then Err(IndexError)
    else
      Ok((seq(nBootstrap, i requires 0 <= i < nBootstrap =>
            FirstOrderVec(RowResample(m2, r[i]), RowResample(m1, r[i]), RowResample(ni, r[i]), w)),
          seq(nBootstrap, i requires 0 <= i < nBootstrap =>
            TotalOrderVec(RowResample(m2, r[i]), RowResample(m1, r[i]), RowResample(ni, r[i]), w))))
  }

  /** As written, the sequential branch fails exactly when there are more
      bootstrap replicates than Monte Carlo rows; the vectorised branch has
      no such failure. */
  lemma SequentialAsWrittenFails(m2: seq<Eval>, m1: seq<Eval>, ni: seq<Eval>, w: nat, r: seq<seq<int>>, nBootstrap: nat)
    requires Estimable(m2, m1, ni, w, r, nBootstrap)
    ensures SequentialAsWritten(m2, m1, ni, w, r, nBootstrap) == Err(IndexError) <==> nBootstrap > |m2|
    ensures |FirstReplicates(m2, m1, ni, w, r, nBootstrap)| == nBootstrap
  {
  }

  /** The defaults of `compute_results` (1000 replicates) with 100 Monte
      Carlo rows and a quantity of interest of 101 elements take the
      sequential branch, which then raises `IndexError`. */
  lemma SequentialBranchWithDefaults(m2: seq<Eval>, m1: seq<Eval>, ni: seq<Eval>, r: seq<seq<int>>)
    requires Estimable(m2, m1, ni, 101, r, 1000) && |m2| == 100
    ensures !UseVectorised(|m2|, 1000, 101)
    ensures SequentialAsWritten(m2, m1, ni, 101, r, 1000) == Err(IndexError)
  {
  }

  /** The corrected sequential branch: `sobols_first = np.zeros([n_bootstrap,
      n_qoi])` filled one replicate at a time, replicate `i` resampling with
      column `r[:, i]` as the comment on the loop describes (matrices of
      size `(n_mc, n_qoi)`). It computes the same replicates as the
      vectorised branch. */
  method SequentialBootstrap(m2: seq<Eval>, m1: seq<Eval>, ni: seq<Eval>, w: nat, r: seq<seq<int>>, nBootstrap: nat)
    returns (sobolsFirst: array<Eval>, sobolsTotal: array<Eval>)
    requires Estimable(m2, m1, ni, w, r, nBootstrap)
    ensures sobolsFirst[..] == FirstReplicates(m2, m1, ni, w, r, nBootstrap)
    ensures sobolsTotal[..] == TotalReplicates(m2, m1, ni, w, r, nBootstrap)
  {
    sobolsFirst := new Eval[nBootstrap](_ => Zeros(w));
    sobolsTotal := new Eval[nBootstrap](_ => Zeros(w));
    for i := 0 to nBootstrap
      invariant forall b :: 0 <= b < i ==> sobolsFirst[b] == FirstReplicate(m2, m1, ni, w, r, nBootstrap, b)
      invariant forall b :: 0 <= b < i ==> sobolsTotal[b] == TotalReplicate(m2, m1, ni, w, r, nBootstrap, b)
    {
      var first, total := SequentialStep(m2, m1, ni, w, r, nBootstrap, i);
      sobolsFirst[i] := first;
      sobolsTotal[i] := total;
    }
  }

  /** One pass of the corrected sequential loop: the estimators on the rows
      that column `r[:, i]` draws. */
  method SequentialStep(m2: seq<Eval>, m1: seq<Eval>, ni: seq<Eval>, w: nat, r: seq<seq<int>>, nBootstrap: nat, i: nat)
    returns (first: Eval, total: Eval)
    requires Estimable(m2, m1, ni, w, r, nBootstrap) && i < nBootstrap
    ensures first == FirstReplicate(m2, m1, ni, w, r, nBootstrap, i)
    ensures total == TotalReplicate(m2, m1, ni, w, r, nBootstrap, i)
  {
    var col := IndexColumn(r, nBootstrap, i);
    var fM2, fM1, fNi := RowResample(m2, col), RowResample(m1, col), RowResample(ni, col);
    ColumnResample(m2, r, nBootstrap, i);
    ColumnResample(m1, r, nBootstrap, i);
    ColumnResample(ni, r, nBootstrap, i);
    ResampleShape(m2, r, nBootstrap, i, w);
    ResampleShape(m1, r, nBootstrap, i, w);
    ResampleShape(ni, r, nBootstrap, i, w);
    first := FirstOrderVec(fM2, fM1, fNi, w);
    total := TotalOrderVec(fM2, fM1, fNi, w);
  }

  /** `r[:, i]`: column `i` of the index matrix, one index per row. */
  function IndexColumn(r: seq<seq<int>>, nBootstrap: nat, i: nat): (col: seq<int>)
    requires (forall k :: 0 <= k < |r| ==> |r[k]| == nBootstrap) && i < nBootstrap
    ensures |col| == |r| && forall k :: 0 <= k < |r| ==> col[k] == r[k][i]
  {
    seq(|r|, k requires 0 <= k < |r| => r[k][i])
  }

  /** Gathering the rows that column `i` of `r` names is the vectorised
      gather of replicate `i`. */
  lemma ColumnResample(f: seq<Eval>, r: seq<seq<int>>, nBootstrap: nat, i: nat)
    requires DrawnIndices(r, |f|, nBootstrap) && i < nBootstrap
    ensures RowResample(f, IndexColumn(r, nBootstrap, i)) == Resample(f, r, nBootstrap, i)
  {
  }

  /** More replicates never turn the sequential strategy back into the
      vectorised one. */
  lemma {:induction false} VectorisedMonotone(nMc: nat, nBootstrap: nat, more: nat, nQoi: nat)
    requires nBootstrap <= more && UseVectorised(nMc, more, nQoi)
    ensures UseVectorised(nMc, nBootstrap, nQoi)
  {
    assert nMc * nBootstrap <= nMc * more;
    assert (nMc * nBootstrap) * nQoi <= (nMc * more) * nQoi;
  }

  /** The `(1 - alpha) * 100` percent bounds that `confidence_interval`
      returns for one index, one pair of bounds per output element. */
  datatype Interval = Interval(low: Eval, high: Eval)

  /** `confidence_interval(replicates, point_estimate, alpha, pivotal=True)`,
      reduced to the bounds it returns. */
  type ConfidenceInterval = (seq<Eval>, Eval, real) -> Interval

  /** The four dictionaries `sobol_bootstrap` returns, each as its list of
      items in insertion order. */
  datatype SobolIndices = SobolIndices(
    first: seq<(string, Eval)>,
    confFirst: seq<(string, Interval)>,
    total: seq<(string, Eval)>,
    confTotal: seq<(string, Interval)>)

  function Keys<V>(items: seq<(string, V)>): (ks: seq<string>)
    ensures |ks| == |items| && forall i :: 0 <= i < |items| ==> ks[i] == items[i].0
  {
    seq(|items|, i requires 0 <= i < |items| => items[i].0)
  }

  /** The number of Monte Carlo rows, `int(len(samples) / (n_params + 2))`. */
  function McRows(nSamples: nat, nParams: nat): nat {
    nSamples / (nParams + 2)
  }

  /** What the random draw promises whenever the source reaches it. */
  predicate DrawFits(nParams: nat, samples: seq<Eval>, nBootstrap: int, r: seq<seq<int>>) {
    nBootstrap > 0 ==> DrawnIndices(r, McRows(|samples|, nParams), nBootstrap)
  }

  /** The stream holds whole blocks of evaluations of one width: what
      numpy needs to build and slice the arrays without raising. */
  predicate Separable(samples: seq<Eval>, nParams: nat) {
    |samples| > 0 && Uniform(samples, |samples[0]|) && |samples| % (nParams + 2) == 0
  }

  lemma SeparableShape(samples: seq<Eval>, nParams: nat)
    requires Separable(samples, nParams)
    ensures |samples| == McRows(|samples|, nParams) * (nParams + 2) && McRows(|samples|, nParams) > 0
    ensures WellShaped(Decompose(samples, nParams), nParams, McRows(|samples|, nParams))
    ensures var d := Decompose(samples, nParams);
      forall j :: 0 <= j < nParams ==> SameShape(d.m2, d.m1, d.ni[j], |samples[0]|)
  {
    var nMc := McRows(|samples|, nParams);
    DecompositionShape(samples, nParams, nMc);
    var d := Decompose(samples, nParams);
    var w := |samples[0]|;
    forall k | 0 <= k < nMc ensures |d.m2[k]| == w && |d.m1[k]| == w {
      DecompositionIndexing(samples, nParams, nMc, k);
    }
    forall j, k | 0 <= j < nParams && 0 <= k < nMc ensures |d.ni[j][k]| == w {
      DecompositionIndexing(samples, nParams, nMc, k);
    }
  }

  /** The point estimates of one parameter and the confidence intervals of
      its replicates. */
  function Estimates(m2: seq<Eval>, m1: seq<Eval>, ni: seq<Eval>, w: nat, r: seq<seq<int>>, nBootstrap: nat, alpha: real, ci: ConfidenceInterval)
    : (Eval, Interval, Eval, Interval)
    requires Estimable(m2, m1, ni, w, r, nBootstrap)
  {
    var valueFirst := FirstOrderVec(m2, m1, ni, w);
    var valueTotal := TotalOrderVec(m2, m1, ni, w);
    (valueFirst, ci(FirstReplicates(m2, m1, ni, w, r, nBootstrap), valueFirst, alpha),
     valueTotal, ci(TotalReplicates(m2, m1, ni, w, r, nBootstrap), valueTotal, alpha))
  }

  /** The four results for parameter `j`. */
  function ParamResult(samples: seq<Eval>, nParams: nat, alpha: real, nBootstrap: nat, r: seq<seq<int>>, ci: ConfidenceInterval, j: nat)
    : (res: (Eval, Interval, Eval, Interval))
    requires Separable(samples, nParams) && DrawnIndices(r, McRows(|samples|, nParams), nBootstrap) && j < nParams
  {
    SeparableShape(samples, nParams);
    var d := Decompose(samples, nParams);
    Estimates(d.m2, d.m1, d.ni[j], |samples[0]|, r, nBootstrap, alpha, ci)
  }

  /** The result dictionaries, one item per parameter in the order of the
      `vary` keys. */
  function AllIndices(varyKeys: seq<string>, samples: seq<Eval>, alpha: real, nBootstrap: nat, r: seq<seq<int>>, ci: ConfidenceInterval)
    : SobolIndices
    requires Separable(samples, |varyKeys|) && DrawnIndices(r, McRows(|samples|, |varyKeys|), nBootstrap)
  {
    var n := |varyKeys|;
    SobolIndices(
      seq(n, j requires 0 <= j < n => (varyKeys[j], ParamResult(samples, n, alpha, nBootstrap, r, ci, j).0)),
      seq(n, j requires 0 <= j < n => (varyKeys[j], ParamResult(samples, n, alpha, nBootstrap, r, ci, j).1)),
      seq(n, j requires 0 <= j < n => (varyKeys[j], ParamResult(samples, n, alpha, nBootstrap, r, ci, j).2)),
      seq(n, j requires 0 <= j < n => (varyKeys[j], ParamResult(samples, n, alpha, nBootstrap, r, ci, j).3)))
  }

  /** `sobol_bootstrap(samples, alpha, n_bootstrap)` for a sampler whose
      `vary` keys are `varyKeys` (so `n_params == |varyKeys|`). The four
      `assert`s raise `AssertionError`; evaluations of different sizes, or a
      count that is not a whole number of blocks, make numpy raise. */
  function BootstrapSpec(varyKeys: seq<string>, samples: seq<Eval>, alpha: real, nBootstrap: int, r: seq<seq<int>>, ci: ConfidenceInterval)
    : (res: Result<SobolIndices>)
    requires DrawFits(|varyKeys|, samples, nBootstrap, r)
    ensures res == Err(AssertionError) <==> |samples| == 0 || alpha <= 0.0 || alpha >= 1.0 || nBootstrap <= 0
    ensures res.Ok? <==> |samples| > 0 && 0.0 < alpha < 1.0 && nBootstrap > 0 && Separable(samples, |varyKeys|)
    ensures res.Ok? ==>
      && Keys(res.value.first) == varyKeys && Keys(res.value.confFirst) == varyKeys
      && Keys(res.value.total) == varyKeys && Keys(res.value.confTotal) == varyKeys
  {
    if |samples| == 0 || alpha <= 0.0 || alpha >= 1.0 || nBootstrap <= 0 then Err(AssertionError)
    else if !Separable(samples, |varyKeys|) then Err(ValueError)
    else Ok(AllIndices(varyKeys, samples, alpha, nBootstrap, r, ci))
  }

  /** The point estimates that `sobol_bootstrap` stores are the estimators
      on the decomposed stream, and every total-order estimate is
      non-negative. */
  lemma BootstrapEstimates(varyKeys: seq<string>, samples: seq<Eval>, alpha: real, nBootstrap: int, r: seq<seq<int>>, ci: ConfidenceInterval, j: nat)
    requires DrawFits(|varyKeys|, samples, nBootstrap, r)
    requires BootstrapSpec(varyKeys, samples, alpha, nBootstrap, r, ci).Ok? && j < |varyKeys|
    ensures var res := BootstrapSpec(varyKeys, samples, alpha, nBootstrap, r, ci).value;
      var d := Decompose(samples, |varyKeys|);
      && WellShaped(d, |varyKeys|, McRows(|samples|, |varyKeys|))
      && SameShape(d.m2, d.m1, d.ni[j], |samples[0]|)
      && res.first[j].1 == FirstOrderVec(d.m2, d.m1, d.ni[j], |samples[0]|)
      && res.total[j].1 == TotalOrderVec(d.m2, d.m1, d.ni[j], |samples[0]|)
      && forall e :: 0 <= e < |samples[0]| ==> res.total[j].1[e] >= 0.0
  {
    SeparableShape(samples, |varyKeys|);
    var d := Decompose(samples, |varyKeys|);
    TotalOrderVecNonnegative(d.m2, d.m1, d.ni[j], |samples[0]|);
  }

  /** `f_Ni[:, j]`, read out of the table. */
  function TableColumn(t: array2<Eval>, j: nat): (c: seq<Eval>)
    requires j < t.Length1
    reads t
    ensures |c| == t.Length0 && forall k :: 0 <= k < t.Length0 ==> c[k] == t[k, j]
  {
    seq(t.Length0, k requires 0 <= k < t.Length0 reads t => t[k, j])
  }

  /** The body of the loop over the parameters: the point estimates, the
      replicates of the branch that the size test selects, and the
      confidence intervals built from them. */
  method ParamBootstrap(fM2: seq<Eval>, fM1: seq<Eval>, fNij: seq<Eval>, nQoi: nat, r: seq<seq<int>>, nBootstrap: nat, alpha: real, ci: ConfidenceInterval)
    returns (valueFirst: Eval, intervalFirst: Interval, valueTotal: Eval, intervalTotal: Interval)
    requires Estimable(fM2, fM1, fNij, nQoi, r, nBootstrap)
    ensures (valueFirst, intervalFirst, valueTotal, intervalTotal) == Estimates(fM2, fM1, fNij, nQoi, r, nBootstrap, alpha, ci)
  {
    valueFirst := FirstOrderVec(fM2, fM1, fNij, nQoi);
    valueTotal := TotalOrderVec(fM2, fM1, fNij, nQoi);
    var sobolsFirst, sobolsTotal;
    if UseVectorised(|fM2|, nBootstrap, nQoi) {
      sobolsFirst := FirstReplicates(fM2, fM1, fNij, nQoi, r, nBootstrap);
      sobolsTotal := TotalReplicates(fM2, fM1, fNij, nQoi, r, nBootstrap);
    } else {
      var a, b := SequentialBootstrap(fM2, fM1, fNij, nQoi, r, nBootstrap);
      sobolsFirst, sobolsTotal := a[..], b[..];
    }
    intervalFirst := ci(sobolsFirst, valueFirst, alpha);
    intervalTotal := ci(sobolsTotal, valueTotal, alpha);
  }

  /** `sobol_bootstrap`, step by step: the checks, the separation into the
      M2, M1 and N_i evaluations, and for every parameter the point
      estimates, the replicates of the branch the size test selects, and
      the confidence intervals, stored under the parameter's name. */
  method SobolBootstrap(varyKeys: seq<string>, samples: seq<Eval>, alpha: real, nBootstrap: int, r: seq<seq<int>>, ci: ConfidenceInterval)
    returns (res: Result<SobolIndices>)
    requires DrawFits(|varyKeys|, samples, nBootstrap, r)
    ensures res == BootstrapSpec(varyKeys, samples, alpha, nBootstrap, r, ci)
  {
    if |samples| == 0 || alpha <= 0.0 || alpha >= 1.0 || nBootstrap <= 0 {
      return Err(AssertionError);
    }
    var nParams := |varyKeys|;
    if !Separable(samples, nParams) {
      return Err(ValueError);
    }
    var nMc := McRows(|samples|, nParams);
    SeparableShape(samples, nParams);
    ghost var d := Decompose(samples, nParams);
    WholeBlocksFit(samples, nParams, nMc);
    var fM2, fM1, fNi, ok := SeparateOutputValues(samples, nParams, nMc);
    assert ok;
    forall k, i | 0 <= k < nMc && 0 <= i < nParams ensures fNi[k, i] == d.ni[i][k] {
      assert Broadcast(d.ni[i], nMc) == Some(d.ni[i]);
    }
    var ix := EstimateAll(varyKeys, samples, alpha, nBootstrap, r, ci, fM2, fM1, fNi);
    res := Ok(ix);
  }

  /** The loop over the parameters of `sobol_bootstrap`, on the separated
      evaluations: one item per parameter, in the order of the `vary` keys. */
  method EstimateAll(varyKeys: seq<string>, samples: seq<Eval>, alpha: real, nBootstrap: nat, r: seq<seq<int>>, ci: ConfidenceInterval,
                     fM2: seq<Eval>, fM1: seq<Eval>, fNi: array2<Eval>)
    returns (ix: SobolIndices)
    requires Separable(samples, |varyKeys|) && DrawnIndices(r, McRows(|samples|, |varyKeys|), nBootstrap)
    requires fM2 == Decompose(samples, |varyKeys|).m2 && fM1 == Decompose(samples, |varyKeys|).m1
    requires WellShaped(Decompose(samples, |varyKeys|), |varyKeys|, McRows(|samples|, |varyKeys|))
    requires fNi.Length0 == McRows(|samples|, |varyKeys|) && fNi.Length1 == |varyKeys|
    requires forall k, i :: 0 <= k < fNi.Length0 && 0 <= i < fNi.Length1 ==> fNi[k, i] == Decompose(samples, |varyKeys|).ni[i][k]
    ensures ix == AllIndices(varyKeys, samples, alpha, nBootstrap, r, ci)
  {
    var nParams := |varyKeys|;
    var nQoi := |samples[0]|;
    SeparableShape(samples, nParams);
    ghost var d := Decompose(samples, nParams);
    var first: seq<(string, Eval)> := [];
    var confFirst: seq<(string, Interval)> := [];
    var total: seq<(string, Eval)> := [];
    var confTotal: seq<(string, Interval)> := [];
    for j := 0 to nParams
      invariant |first| == j && |confFirst| == j && |total| == j && |confTotal| == j
      invariant forall i :: 0 <= i < j ==> first[i] == (varyKeys[i], ParamResult(samples, nParams, alpha, nBootstrap, r, ci, i).0)
      invariant forall i :: 0 <= i < j ==> confFirst[i] == (varyKeys[i], ParamResult(samples, nParams, alpha, nBootstrap, r, ci, i).1)
      invariant forall i :: 0 <= i < j ==> total[i] == (varyKeys[i], ParamResult(samples, nParams, alpha, nBootstrap, r, ci, i).2)
      invariant forall i :: 0 <= i < j ==> confTotal[i] == (varyKeys[i], ParamResult(samples, nParams, alpha, nBootstrap, r, ci, i).3)
    {
      var fNij := TableColumn(fNi, j);
      assert fNij == d.ni[j];
      var valueFirst, intervalFirst, valueTotal, intervalTotal := ParamBootstrap(fM2, fM1, fNij, nQoi, r, nBootstrap, alpha, ci);
      assert (valueFirst, intervalFirst, valueTotal, intervalTotal) == ParamResult(samples, nParams, alpha, nBootstrap, r, ci, j);
      first := first + [(varyKeys[j], valueFirst)];
      confFirst := confFirst + [(varyKeys[j], intervalFirst)];
      total := total + [(varyKeys[j], valueTotal)];
      confTotal := confTotal + [(varyKeys[j], intervalTotal)];
    }
    ghost var spec := AllIndices(varyKeys, samples, alpha, nBootstrap, r, ci);
    assert first == spec.first;
    assert confFirst == spec.confFirst;
    assert total == spec.total;
    assert confTotal == spec.confTotal;
    ix := SobolIndices(first, confFirst, total, confTotal);
  }
}
