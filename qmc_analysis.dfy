/** The `QMCAnalysis` element: its construction, `compute_results`,
    `merge_campaigns` and `analyse`, on top of `get_samples` and
    `sobol_bootstrap`. */
module QmcAnalysis {
  import opened Wrappers
  import opened Statistics
  import opened SampleTable
  import opened Bootstrap

  /** The class of the sampler the element is given; the `isinstance`
      checks only ask which one it is. */
  datatype SamplerKind = QMCSampler | MCSampler | OtherSampler

  /** A sampler and the keys of its `vary` dictionary, in order. */
  datatype Sampler = Sampler(kind: SamplerKind, varyKeys: seq<string>)

  datatype Analysis = Analysis(sampler: Sampler, qoiCols: seq<string>)

  /** `QMCAnalysis(sampler, qoi_cols)`: `RuntimeError` unless the sampler is a
      `QMCSampler` or an `MCSampler`; the quantities of interest default to
      the `vary` keys. */
  function NewAnalysis(sampler: Sampler, qoiCols: Option<seq<string>>): (r: Result<Analysis>)
    ensures r.Err? <==> sampler.kind == OtherSampler
    ensures r.Err? ==> r.error == RuntimeError
    ensures r.Ok? ==> r.value.sampler == sampler
    ensures r.Ok? && qoiCols.None? ==> r.value.qoiCols == sampler.varyKeys
    ensures r.Ok? && qoiCols.Some? ==> r.value.qoiCols == qoiCols.value
  {
    if sampler.kind == OtherSampler then Err(RuntimeError)
    else Ok(Analysis(sampler, if qoiCols.None? then sampler.varyKeys else qoiCols.value))
  }

  /** The defaults with which `compute_results` calls `sobol_bootstrap`. */
  const Alpha: real := 0.05
  const NBootstrap: nat := 1000

  /** `np.random.randint(n_mc, size=(n_mc, n_bootstrap))` as drawn for the
      `j`-th quantity of interest. */
  type Rng = (nat, nat, nat) -> seq<seq<int>>

  ghost predicate ValidRng(rng: Rng) {
    forall j: nat, nMc: nat, nB: nat :: DrawnIndices(rng(j, nMc, nB), nMc, nB)
  }

  /** `'statistical_moments'` of one quantity: mean and variance of every
      output element. */
  datatype Moments = Moments(mean: Eval, variance: Eval)

  /** The five result dictionaries, keyed by quantity of interest. */
  datatype Results = Results(
    moments: map<string, Moments>,
    sobolsFirst: map<string, seq<(string, Eval)>>,
    sobolsTotal: map<string, seq<(string, Eval)>>,
    confSobolsFirst: map<string, seq<(string, Interval)>>,
    confSobolsTotal: map<string, seq<(string, Interval)>>)

  /** The index matrix drawn for the `j`-th quantity with samples `s`. */
  function DrawFor(a: Analysis, rng: Rng, j: nat, s: seq<Eval>): seq<seq<int>> {
    rng(j, McRows(|s|, |a.sampler.varyKeys|), NBootstrap)
  }

  /** The body of the `compute_results` loop for the `j`-th quantity:
      `KeyError` when it has no samples, `ValueError` from `np.mean` on
      evaluations of different sizes, then `sobol_bootstrap`. */
  function QoiResult(a: Analysis, samples: map<string, seq<Eval>>, rng: Rng, ci: ConfidenceInterval, j: nat)
    : (r: Result<(Moments, SobolIndices)>)
    requires ValidRng(rng) && j < |a.qoiCols|
    ensures a.qoiCols[j] !in samples ==> r == Err(KeyError)
    ensures var k := a.qoiCols[j];
      k in samples && |samples[k]| > 0 && !Uniform(samples[k], |samples[k][0]|) ==> r == Err(ValueError)
    ensures r.Ok? ==>
      var s := samples[a.qoiCols[j]];
      && a.qoiCols[j] in samples && |s| > 0 && Uniform(s, |s[0]|)
      && r.value.0.mean == MeanVec(s, |s[0]|) && r.value.0.variance == VarVec(s, |s[0]|)
      && BootstrapSpec(a.sampler.varyKeys, s, Alpha, NBootstrap, DrawFor(a, rng, j, s), ci) == Ok(r.value.1)
  {
    var k := a.qoiCols[j];
    if k !in samples then Err(KeyError)
    else
      var s := samples[k];
      if |s| > 0 && !Uniform(s, |s[0]|) then Err(ValueError)
      else
        match BootstrapSpec(a.sampler.varyKeys, s, Alpha, NBootstrap, DrawFor(a, rng, j, s), ci)
        case Err(e) => Err(e)
        case Ok(ix) => Ok((Moments(MeanVec(s, |s[0]|), VarVec(s, |s[0]|)), ix))
  }

  function Store(res: Results, k: string, m: Moments, ix: SobolIndices): Results {
    Results(res.moments[k := m], res.sobolsFirst[k := ix.first], res.sobolsTotal[k := ix.total],
            res.confSobolsFirst[k := ix.confFirst], res.confSobolsTotal[k := ix.confTotal])
  }

  const NoResults := Results(map[], map[], map[], map[], map[])

  /** The results after the first `n` quantities. */
  function ResultsUpTo(a: Analysis, samples: map<string, seq<Eval>>, rng: Rng, ci: ConfidenceInterval, n: nat)
    : Result<Results>
    requires ValidRng(rng) && n <= |a.qoiCols|
  {
    if n == 0 then Ok(NoResults)
    else
      match ResultsUpTo(a, samples, rng, ci, n - 1)
      case Err(e) => Err(e)
      case Ok(res) =>
        match QoiResult(a, samples, rng, ci, n - 1)
        case Err(e) => Err(e)
        case Ok(p) => Ok(Store(res, a.qoiCols[n - 1], p.0, p.1))
  }

  /** `compute_results(samples)`. */
  function ResultsOf(a: Analysis, samples: map<string, seq<Eval>>, rng: Rng, ci: ConfidenceInterval): Result<Results>
    requires ValidRng(rng)
  {
    ResultsUpTo(a, samples, rng, ci, |a.qoiCols|)
  }

  lemma {:induction false} ResultsUpToStops(a: Analysis, samples: map<string, seq<Eval>>, rng: Rng, ci: ConfidenceInterval, j: nat, n: nat)
    requires ValidRng(rng) && j <= n <= |a.qoiCols| && ResultsUpTo(a, samples, rng, ci, j).Err?
    ensures ResultsUpTo(a, samples, rng, ci, n) == ResultsUpTo(a, samples, rng, ci, j)
    decreases n - j
  {
    if j < n {
      ResultsUpToStops(a, samples, rng, ci, j, n - 1);
    }
  }

  /** The loop of `compute_results` over the quantities of interest. */
  method ComputeResults(a: Analysis, samples: map<string, seq<Eval>>, rng: Rng, ci: ConfidenceInterval)
    returns (res: Result<Results>)
    requires ValidRng(rng)
    ensures res == ResultsOf(a, samples, rng, ci)
  {
    var results := NoResults;
    for j := 0 to |a.qoiCols|
      invariant ResultsUpTo(a, samples, rng, ci, j) == Ok(results)
    {
      var k := a.qoiCols[j];
      var failure: Option<Error> := None;
      if k !in samples {
        failure := Some(KeyError);
      } else {
        var s := samples[k];
        if |s| > 0 && !Uniform(s, |s[0]|) {
          failure := Some(ValueError);
        } else {
          var r := DrawFor(a, rng, j, s);
          var ix := SobolBootstrap(a.sampler.varyKeys, s, Alpha, NBootstrap, r, ci);
          if ix.Err? {
            failure := Some(ix.error);
          } else {
            var moments := Moments(MeanVec(s, |s[0]|), VarVec(s, |s[0]|));
            results := Store(results, k, moments, ix.value);
          }
        }
      }
      if failure.Some? {
        assert ResultsUpTo(a, samples, rng, ci, j + 1) == Err(failure.value);
        ResultsUpToStops(a, samples, rng, ci, j + 1, |a.qoiCols|);
        return Err(failure.value);
      }
    }
    res := Ok(results);
  }

  /** `compute_results` succeeds exactly when every quantity of interest has
      a non-empty stream of whole blocks of equal-sized evaluations. */
  lemma {:induction false} ResultsOk(a: Analysis, samples: map<string, seq<Eval>>, rng: Rng, ci: ConfidenceInterval, n: nat)
    requires ValidRng(rng) && n <= |a.qoiCols|
    ensures ResultsUpTo(a, samples, rng, ci, n).Ok? <==>
      forall j :: 0 <= j < n ==> a.qoiCols[j] in samples && Separable(samples[a.qoiCols[j]], |a.sampler.varyKeys|)
  {
    if n > 0 {
      ResultsOk(a, samples, rng, ci, n - 1);
    }
  }

  /** Every quantity computed so far has an entry in all five dictionaries,
      and nothing else has. */
  lemma {:induction false} ResultsKeys(a: Analysis, samples: map<string, seq<Eval>>, rng: Rng, ci: ConfidenceInterval, n: nat)
    requires ValidRng(rng) && n <= |a.qoiCols| && ResultsUpTo(a, samples, rng, ci, n).Ok?
    ensures var res := ResultsUpTo(a, samples, rng, ci, n).value;
      var ks := set j | 0 <= j < n :: a.qoiCols[j];
      && res.moments.Keys == ks && res.sobolsFirst.Keys == ks && res.sobolsTotal.Keys == ks
      && res.confSobolsFirst.Keys == ks && res.confSobolsTotal.Keys == ks
  {
    if n > 0 {
      ResultsStep(a, samples, rng, ci, n);
      ResultsKeys(a, samples, rng, ci, n - 1);
      var prev := ResultsUpTo(a, samples, rng, ci, n - 1).value;
      var p := QoiResult(a, samples, rng, ci, n - 1).value;
      ListedStep(a.qoiCols, n);
      StoreKeys(prev, a.qoiCols[n - 1], p.0, p.1, set j | 0 <= j < n - 1 :: a.qoiCols[j]);
    }
  }

  /** The names among the first `n` grow by the `n`-th. */
  lemma ListedStep(qs: seq<string>, n: nat)
    requires 0 < n <= |qs|
    ensures (set j | 0 <= j < n :: qs[j]) == (set j | 0 <= j < n - 1 :: qs[j]) + {qs[n - 1]}
  {
  }

  /** A successful computation of `n` quantities extends the one of the
      first `n - 1` by the results of the last. */
  lemma ResultsStep(a: Analysis, samples: map<string, seq<Eval>>, rng: Rng, ci: ConfidenceInterval, n: nat)
    requires ValidRng(rng) && 0 < n <= |a.qoiCols| && ResultsUpTo(a, samples, rng, ci, n).Ok?
    ensures ResultsUpTo(a, samples, rng, ci, n - 1).Ok? && QoiResult(a, samples, rng, ci, n - 1).Ok?
    ensures var p := QoiResult(a, samples, rng, ci, n - 1).value;
      ResultsUpTo(a, samples, rng, ci, n).value
        == Store(ResultsUpTo(a, samples, rng, ci, n - 1).value, a.qoiCols[n - 1], p.0, p.1)
  {
  }

  /** Storing a quantity's results adds its key to all five dictionaries. */
  lemma StoreKeys(res: Results, k: string, m: Moments, ix: SobolIndices, ks: set<string>)
    requires res.moments.Keys == ks && res.sobolsFirst.Keys == ks && res.sobolsTotal.Keys == ks
    requires res.confSobolsFirst.Keys == ks && res.confSobolsTotal.Keys == ks
    ensures var r := Store(res, k, m, ix);
      && r.moments.Keys == ks + {k} && r.sobolsFirst.Keys == ks + {k} && r.sobolsTotal.Keys == ks + {k}
      && r.confSobolsFirst.Keys == ks + {k} && r.confSobolsTotal.Keys == ks + {k}
  {
  }

  /** The entries of a quantity are the ones computed at its last listing:
      its moments, and for every `vary` key, in order, the Sobol indices
      and confidence intervals of `sobol_bootstrap`. */
  lemma {:induction false} ResultsEntry(a: Analysis, samples: map<string, seq<Eval>>, rng: Rng, ci: ConfidenceInterval, n: nat, j: nat)
    requires ValidRng(rng) && j < n <= |a.qoiCols| && ResultsUpTo(a, samples, rng, ci, n).Ok?
    requires forall j' :: j < j' < n ==> a.qoiCols[j'] != a.qoiCols[j]
    ensures QoiResult(a, samples, rng, ci, j).Ok?
    ensures var res := ResultsUpTo(a, samples, rng, ci, n).value;
      var k := a.qoiCols[j];
      var p := QoiResult(a, samples, rng, ci, j).value;
      && k in res.moments && res.moments[k] == p.0
      && k in res.sobolsFirst && res.sobolsFirst[k] == p.1.first
      && k in res.sobolsTotal && res.sobolsTotal[k] == p.1.total
      && k in res.confSobolsFirst && res.confSobolsFirst[k] == p.1.confFirst
      && k in res.confSobolsTotal && res.confSobolsTotal[k] == p.1.confTotal
  {
    if j < n - 1 {
      ResultsEntry(a, samples, rng, ci, n - 1, j);
    }
  }

  /** What one quantity's entries are: the moments of its samples, and the
      indices of `sobol_bootstrap` keyed by the `vary` keys in order, every
      total-order index non-negative. */
  lemma QoiResultMeaning(a: Analysis, samples: map<string, seq<Eval>>, rng: Rng, ci: ConfidenceInterval, j: nat)
    requires ValidRng(rng) && j < |a.qoiCols| && QoiResult(a, samples, rng, ci, j).Ok?
    ensures var k := a.qoiCols[j];
      && k in samples && Separable(samples[k], |a.sampler.varyKeys|)
      && var s := samples[k];
      var p := QoiResult(a, samples, rng, ci, j).value;
      && p.0 == Moments(MeanVec(s, |s[0]|), VarVec(s, |s[0]|))
      && (forall e :: 0 <= e < |s[0]| ==> p.0.variance[e] >= 0.0)
      && Keys(p.1.first) == a.sampler.varyKeys && Keys(p.1.total) == a.sampler.varyKeys
      && Keys(p.1.confFirst) == a.sampler.varyKeys && Keys(p.1.confTotal) == a.sampler.varyKeys
      && forall i, e :: 0 <= i < |a.sampler.varyKeys| && 0 <= e < |s[0]| ==> |p.1.total[i].1| == |s[0]| && p.1.total[i].1[e] >= 0.0
  {
    var k := a.qoiCols[j];
    var s := samples[k];
    var r := DrawFor(a, rng, j, s);
    forall i | 0 <= i < |a.sampler.varyKeys|
      ensures |BootstrapSpec(a.sampler.varyKeys, s, Alpha, NBootstrap, r, ci).value.total[i].1| == |s[0]|
      ensures forall e :: 0 <= e < |s[0]| ==> BootstrapSpec(a.sampler.varyKeys, s, Alpha, NBootstrap, r, ci).value.total[i].1[e] >= 0.0
    {
      BootstrapEstimates(a.sampler.varyKeys, s, Alpha, NBootstrap, r, ci, i);
    }
  }

  // ---------------------------------------------------------------------
  // merge_campaigns

  predicate TablesWellFormed(tables: seq<Table>) {
    forall t :: 0 <= t < |tables| ==> tables[t].FrameTable? ==> WellFormed(tables[t].frame)
  }

  /** `get_samples(data_frame)` of every campaign, in order. */
  ghost function Sampled(qoiCols: seq<string>, tables: seq<Table>): (rs: seq<Result<map<string, seq<Eval>>>>)
    requires TablesWellFormed(tables)
    ensures |rs| == |tables|
  {
    seq(|tables|, t requires 0 <= t < |tables| => SamplesOf(qoiCols, tables[t], None))
  }

  /** Every dictionary that was read has an entry per quantity of interest. */
  predicate HasKeys(qoiCols: seq<string>, dicts: seq<Result<map<string, seq<Eval>>>>) {
    forall t, k :: 0 <= t < |dicts| && dicts[t].Ok? && k in qoiCols ==> k in dicts[t].value
  }

  lemma SampledHasKeys(qoiCols: seq<string>, tables: seq<Table>)
    requires TablesWellFormed(tables)
    ensures HasKeys(qoiCols, Sampled(qoiCols, tables))
  {
    forall t, k | 0 <= t < |tables| && Sampled(qoiCols, tables)[t].Ok? && k in qoiCols
      ensures k in Sampled(qoiCols, tables)[t].value
    {
      assert Sampled(qoiCols, tables)[t] == SamplesOf(qoiCols, tables[t], None);
    }
  }

  /** `for k in qoi_cols: samples[k] += sample_dict[k]`: a quantity listed
      `c` times gets the new list `c` times. */
  function AddAll(qoiCols: seq<string>, acc: map<string, seq<Eval>>, d: map<string, seq<Eval>>): (m: map<string, seq<Eval>>)
    requires forall k :: k in qoiCols ==> k in acc && k in d
  {
    map k | k in acc :: if k in qoiCols then acc[k] + Repeat(d[k], Count(qoiCols, k)) else acc[k]
  }

  /** The merged samples after the first `n` campaigns, with `dicts` what
      `get_samples` gave for each. */
  function MergedUpTo(qoiCols: seq<string>, dicts: seq<Result<map<string, seq<Eval>>>>, n: nat)
    : (r: Result<map<string, seq<Eval>>>)
    requires HasKeys(qoiCols, dicts) && n <= |dicts|
    ensures r.Ok? ==> forall k :: k in qoiCols ==> k in r.value
  {
    if n == 0 then Ok(map k | k in qoiCols :: [])
    else
      match MergedUpTo(qoiCols, dicts, n - 1)
      case Err(e) => Err(e)
      case Ok(acc) =>
        match dicts[n - 1]
        case Err(e) => Err(e)
        case Ok(d) => Ok(AddAll(qoiCols, acc, d))
  }

  lemma {:induction false} MergedUpToStops(qoiCols: seq<string>, dicts: seq<Result<map<string, seq<Eval>>>>, j: nat, n: nat)
    requires HasKeys(qoiCols, dicts) && j <= n <= |dicts| && MergedUpTo(qoiCols, dicts, j).Err?
    ensures MergedUpTo(qoiCols, dicts, n) == MergedUpTo(qoiCols, dicts, j)
    decreases n - j
  {
    if j < n {
      MergedUpToStops(qoiCols, dicts, j, n - 1);
    }
  }

  /** The loops of `merge_campaigns`, before `compute_results`. */
  method MergeSamples(qoiCols: seq<string>, tables: seq<Table>) returns (res: Result<map<string, seq<Eval>>>)
    requires TablesWellFormed(tables)
    ensures HasKeys(qoiCols, Sampled(qoiCols, tables))
    ensures res == MergedUpTo(qoiCols, Sampled(qoiCols, tables), |tables|)
  {
    ghost var dicts := Sampled(qoiCols, tables);
    SampledHasKeys(qoiCols, tables);
    var samples: map<string, seq<Eval>> := map k | k in qoiCols :: [];
    for t := 0 to |tables|
      invariant MergedUpTo(qoiCols, dicts, t) == Ok(samples)
    {
      var next := MergeCampaign(qoiCols, tables, t, samples);
      if next.Err? {
        MergedUpToStops(qoiCols, dicts, t + 1, |tables|);
        return next;
      }
      samples := next.value;
    }
    res := Ok(samples);
  }

  /** One turn of the loop of `merge_campaigns`: read campaign `t` and add
      its lists. */
  method MergeCampaign(qoiCols: seq<string>, tables: seq<Table>, t: nat, acc: map<string, seq<Eval>>)
    returns (next: Result<map<string, seq<Eval>>>)
    requires TablesWellFormed(tables) && t < |tables| && HasKeys(qoiCols, Sampled(qoiCols, tables))
    requires MergedUpTo(qoiCols, Sampled(qoiCols, tables), t) == Ok(acc)
    ensures next == MergedUpTo(qoiCols, Sampled(qoiCols, tables), t + 1)
  {
    var sampleDict := GetSamples(qoiCols, tables[t], None);
    SampledAt(qoiCols, tables, t, sampleDict);
    if sampleDict.Err? {
      return Err(sampleDict.error);
    }
    MergedStep(qoiCols, Sampled(qoiCols, tables), t, acc, sampleDict.value);
    var merged := AddSamples(qoiCols, acc, sampleDict.value);
    next := Ok(merged);
  }

  lemma SampledAt(qoiCols: seq<string>, tables: seq<Table>, t: nat, r: Result<map<string, seq<Eval>>>)
    requires TablesWellFormed(tables) && t < |tables| && r == SamplesOf(qoiCols, tables[t], None)
    ensures Sampled(qoiCols, tables)[t] == r
  {
  }

  lemma MergedStep(qoiCols: seq<string>, dicts: seq<Result<map<string, seq<Eval>>>>, t: nat,
                   acc: map<string, seq<Eval>>, d: map<string, seq<Eval>>)
    requires HasKeys(qoiCols, dicts) && t < |dicts|
    requires MergedUpTo(qoiCols, dicts, t) == Ok(acc) && dicts[t] == Ok(d)
    ensures forall k :: k in qoiCols ==> k in acc && k in d
    ensures MergedUpTo(qoiCols, dicts, t + 1) == Ok(AddAll(qoiCols, acc, d))
  {
  }

  /** The inner loop of `merge_campaigns` for one campaign's samples `d`. */
  method AddSamples(qoiCols: seq<string>, acc: map<string, seq<Eval>>, d: map<string, seq<Eval>>)
    returns (samples: map<string, seq<Eval>>)
    requires forall k :: k in qoiCols ==> k in acc && k in d
    ensures samples == AddAll(qoiCols, acc, d)
  {
    samples := acc;
    for i := 0 to |qoiCols|
      invariant samples.Keys == acc.Keys
      invariant forall k :: k in acc && k in d ==> samples[k] == acc[k] + Repeat(d[k], Count(qoiCols[..i], k))
      invariant forall k :: k in acc && k !in qoiCols[..i] ==> samples[k] == acc[k]
    {
      var k := qoiCols[i];
      assert qoiCols[..i + 1] == qoiCols[..i] + [k];
      assert qoiCols[..i + 1][..i] == qoiCols[..i];
      ghost var previous := samples;
      samples := samples[k := samples[k] + d[k]];
      forall k' | k' in acc && k' in d
        ensures samples[k'] == acc[k'] + Repeat(d[k'], Count(qoiCols[..i + 1], k'))
      {
        if k' == k {
          assert samples[k'] == acc[k'] + Repeat(d[k'], Count(qoiCols[..i], k')) + d[k'];
        } else {
          assert samples[k'] == previous[k'];
        }
      }
    }
    assert qoiCols[..|qoiCols|] == qoiCols;
  }

  /** `merge_campaigns(data_frames)`. */
  method MergeCampaigns(a: Analysis, tables: seq<Table>, rng: Rng, ci: ConfidenceInterval)
    returns (res: Result<Results>)
    requires TablesWellFormed(tables) && ValidRng(rng)
    ensures HasKeys(a.qoiCols, Sampled(a.qoiCols, tables))
    ensures var merged := MergedUpTo(a.qoiCols, Sampled(a.qoiCols, tables), |tables|);
      && (merged.Err? ==> res == Err(merged.error))
      && (merged.Ok? ==> res == ResultsOf(a, merged.value, rng, ci))
  {
    var samples := MergeSamples(a.qoiCols, tables);
    if samples.Err? {
      return Err(samples.error);
    }
    res := ComputeResults(a, samples.value, rng, ci);
  }

  /** The lists of a quantity in each of the first `n` campaigns. */
  function ListsOf(dicts: seq<Result<map<string, seq<Eval>>>>, n: nat, k: string): (ls: seq<seq<Eval>>)
    requires n <= |dicts|
    ensures |ls| == n
  {
    seq(n, t requires 0 <= t < n => if dicts[t].Ok? && k in dicts[t].value then dicts[t].value[k] else [])
  }

  function SumLengths<T>(ss: seq<seq<T>>): nat {
    if |ss| == 0 then 0 else SumLengths(ss[..|ss| - 1]) + |ss[|ss| - 1]|
  }

  /** Merging succeeds exactly when every campaign's samples can be read. */
  lemma {:induction false} MergedOk(qoiCols: seq<string>, dicts: seq<Result<map<string, seq<Eval>>>>, n: nat)
    requires HasKeys(qoiCols, dicts) && n <= |dicts|
    ensures MergedUpTo(qoiCols, dicts, n).Ok? <==> forall t :: 0 <= t < n ==> dicts[t].Ok?
  {
    if n > 0 {
      MergedOk(qoiCols, dicts, n - 1);
    }
  }

  /** A quantity listed once holds the concatenation of its lists in
      campaign order, as long as all of them together. */
  lemma {:induction false} MergedConcatenation(qoiCols: seq<string>, dicts: seq<Result<map<string, seq<Eval>>>>, n: nat, k: string)
    requires HasKeys(qoiCols, dicts) && n <= |dicts| && k in qoiCols && Count(qoiCols, k) == 1
    requires MergedUpTo(qoiCols, dicts, n).Ok?
    ensures MergedUpTo(qoiCols, dicts, n).value[k] == Flatten(ListsOf(dicts, n, k))
    ensures |MergedUpTo(qoiCols, dicts, n).value[k]| == SumLengths(ListsOf(dicts, n, k))
  {
    if n > 0 {
      var acc := MergedUpTo(qoiCols, dicts, n - 1).value;
      MergedConcatenation(qoiCols, dicts, n - 1, k);
      var d := dicts[n - 1].value;
      assert Repeat(d[k], 1) == d[k];
      assert MergedUpTo(qoiCols, dicts, n).value[k] == acc[k] + d[k];
      assert ListsOf(dicts, n, k)[..n - 1] == ListsOf(dicts, n - 1, k);
    }
    FlattenLength(ListsOf(dicts, n, k));
  }

  lemma {:induction false} FlattenLength<T>(ss: seq<seq<T>>)
    ensures |Flatten(ss)| == SumLengths(ss)
  {
    if |ss| > 0 {
      FlattenLength(ss[..|ss| - 1]);
    }
  }

  // ---------------------------------------------------------------------
  // analyse

  /** `analyse(data_frame, output_index=...)`: `RuntimeError` for a DataFrame
      without rows, otherwise `get_samples` and then `compute_results`. */
  ghost function AnalyseOf(a: Analysis, t: Table, outputIndex: Option<int>, rng: Rng, ci: ConfidenceInterval): (r: Result<Results>)
    requires (t.FrameTable? ==> WellFormed(t.frame)) && ValidRng(rng)
    ensures t.FrameTable? && |t.frame.runId| == 0 ==> r == Err(RuntimeError)
  {
    if t.FrameTable? && |t.frame.runId| == 0 then Err(RuntimeError)
    else
      match SamplesOf(a.qoiCols, t, outputIndex)
      case Err(e) => Err(e)
      case Ok(samples) => ResultsOf(a, samples, rng, ci)
  }

  method Analyse(a: Analysis, t: Table, outputIndex: Option<int>, rng: Rng, ci: ConfidenceInterval)
    returns (res: Result<Results>)
    requires (t.FrameTable? ==> WellFormed(t.frame)) && ValidRng(rng)
    ensures res == AnalyseOf(a, t, outputIndex, rng, ci)
  {
    if t.FrameTable? && |t.frame.runId| == 0 {
      return Err(RuntimeError);
    }
    var samples := GetSamples(a.qoiCols, t, outputIndex);
    if samples.Err? {
      return Err(samples.error);
    }
    res := ComputeResults(a, samples.value, rng, ci);
  }
}
