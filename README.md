# EasyVVUQ quasi-Monte Carlo analysis and Prominence job actions, modelled in Dafny

This project models two parts of EasyVVUQ.

- **The QMC analysis element** (`QMCAnalysis`). It takes the code evaluations of a (quasi-)Monte Carlo campaign in Saltelli's layout and computes:
  - per quantity of interest (QoI), the mean and variance of the evaluations;
  - per uncertain parameter, the first- and total-order Sobol indices;
  - bootstrap confidence intervals for those indices.
- **The Prominence action**:
  - `ExecuteProminence.act_on_dir` turns a run directory into a job description;
  - `ActionStatusProminence` tracks the submitted job through its `started`, `succeeded` and `id` state.

## Layout

- `wrappers.dfy`: `Option`, `Result`, and the Python exceptions the code raises, as values.
- `run_labels.dfy`: the run labels `"Run_" + str(n)`, and how `int(label.split('Run_')[-1])` reads them back.
- `statistics.dfy`: sum, mean and population variance over `real`, and their per-element forms over vector evaluations.
- `decomposition.dfy`: the strided slices that split the evaluations into the M2, N_i and M1 parts (`_separate_output_values`), and the round trip with the block layout.
- `estimators.dfy`: `_first_order` and `_total_order`, with numpy's masking of a zero variance.
- `bootstrap.dfy`: `sobol_bootstrap`, covering:
  - the checks;
  - the gathered replicates of the vectorised branch;
  - the sequential branch, both as written and corrected;
  - the per-parameter result dictionaries.
- `sample_table.dfy`: `get_samples`, for the DataFrame input and for the dictionary input.
- `qmc_analysis.dfy`: the constructor, `compute_results`, `merge_campaigns` and `analyse`.
- `prominence.dfy`: the classes `ActionStatusProminence` and `ExecuteProminence`.

## How the model works

- **Evaluations.** A code evaluation is a vector of reals (`Eval = seq<real>`). A scalar QoI is a vector of width 1.
- **Exceptions.** A Python exception becomes an `Err` carrying its class. An operation that raises part-way is modelled by the sequence of steps it takes (`Append` or `Raise`). Its result is the first exception, or the lists collected before it.
- **Specification functions.** The loops of `get_samples`, `merge_campaigns`, `compute_results`, `sobol_bootstrap` and `_separate_output_values` are methods. Each is proved equal to a specification function, and the promised properties are lemmas about those functions.
- **Prominence state.** `ActionStatusProminence` and `ExecuteProminence` are classes. `finished()` and `finalise()` are proved equal to the specification functions `StatusOf` and `FinalOutcome`. `start()`, `add_input_files()` and `act_on_dir()` state their new state or their result directly in their contracts.
- **Parameter count.** The sampler's `n_params` is taken to be the number of keys of `vary`. The sampler computes it from the same `vary`, so the model does not keep it separately.
- **Randomness and intervals.** The bootstrap index matrix of `np.random.randint` is a parameter, and so is `confidence_interval`. Any index matrix of the right shape and range is allowed.
- **HTTP and tokens.** The HTTP responses and the token (the access token read for the request header) are parameters of the Prominence methods. The header is built anew for every request, so `Finalise` takes one token for the status query and another for the output request.

## Model

| member | source | states |
|---|---|---|
| `RunLabels.NatToString` | easyvvuq/analysis/qmc_analysis.py:135 | `str(n)` is a non-empty string of decimal digits, with no leading zero unless n is 0 |
| `RunLabels.ParseInt` | easyvvuq/analysis/qmc_analysis.py:132 | `int(s)` succeeds iff `s` is a non-empty run of decimal digits, or a `+` or `-` followed by one; the value is the digits' decimal value, negated after a `-` |
| `RunLabels.ParseIntOfString` | easyvvuq/analysis/qmc_analysis.py:132 | `int(str(n)) == n` for every non-negative n |
| `RunLabels.DigitsRoundTrip` | easyvvuq/analysis/qmc_analysis.py:132-135 | reading back the digits of `str(n)` gives n |
| `RunLabels.NoSeparatorInDigits` | easyvvuq/analysis/qmc_analysis.py:132 | splitting on `Run_` finds no separator inside a run of digits |
| `RunLabels.RunLabelRoundTrip` | easyvvuq/analysis/qmc_analysis.py:132-135 | `int(("Run_" + str(n)).split('Run_')[-1]) == n` for every n ≥ 0 |
| `RunLabels.RunLabelInjective` | easyvvuq/analysis/qmc_analysis.py:135 | distinct run numbers have distinct labels |
| `Statistics.Var` | easyvvuq/analysis/qmc_analysis.py:95 | the population variance of a non-empty list is ≥ 0 |
| `Statistics.MeanOfConstant` | easyvvuq/analysis/qmc_analysis.py:94 | the mean of a constant list is that constant |
| `Statistics.ConstantVarianceZero` | easyvvuq/analysis/qmc_analysis.py:95 | a constant list has variance 0 |
| `Statistics.ColumnOfConcat` | easyvvuq/analysis/qmc_analysis.py:316 | element e of the stacked `np.r_[a, b]` is element e of a followed by element e of b |
| `Statistics.MeanVec` | easyvvuq/analysis/qmc_analysis.py:94 | `np.mean(samples, axis=0)` has one entry per output element |
| `Statistics.VarVec` | easyvvuq/analysis/qmc_analysis.py:95 | `np.var(samples, axis=0)` has one non-negative entry per output element |
| `Decomposition.StridedAt` | easyvvuq/analysis/qmc_analysis.py:290-294 | element k of `s[offset::step]` is `s[offset + k*step]` |
| `Decomposition.StridedLength` | easyvvuq/analysis/qmc_analysis.py:290-294 | on n whole blocks, each strided slice has exactly n elements |
| `Decomposition.DecompositionIndexing` | easyvvuq/analysis/qmc_analysis.py:284-296 | when `len == n_mc*(n_params+2)`: `f_M2[k] = s[k*step]`, `f_M1[k] = s[k*step+step-1]` and `f_Ni[k][i] = s[k*step+i+1]`, and every part has n_mc rows |
| `Decomposition.DecompositionShape` | easyvvuq/analysis/qmc_analysis.py:286-294 | on whole blocks, M2, M1 and every N_i have n_mc rows |
| `Decomposition.DecomposeThenRecompose` | easyvvuq/analysis/qmc_analysis.py:290-294 | interleaving the parts back block by block gives the original stream, so every position is in exactly one part, in order |
| `Decomposition.RecomposeThenDecompose` | easyvvuq/analysis/qmc_analysis.py:290-294 | separating an interleaved stream gives back the parts it was built from |
| `Decomposition.Broadcast` | easyvvuq/analysis/qmc_analysis.py:294 | assigning a slice to a column of n rows succeeds iff the slice has n rows or one row, and then places row k (or the single row) at k |
| `Decomposition.SeparateOutputValues` | easyvvuq/analysis/qmc_analysis.py:257-296 | returns the M2 and M1 slices and an `n_mc × n_params` table; table entry `[k, i]` is row k of the N_i slice, and the method fails iff the evaluations differ in width (`np.array` raises) or some N_i slice does not fit its column |
| `Decomposition.WholeBlocksFit` | easyvvuq/analysis/qmc_analysis.py:293-294 | on whole blocks every N_i slice fits its column unchanged |
| `Estimators.MaskedDiv` | easyvvuq/analysis/qmc_analysis.py:317 | `x / (V + (V == 0)) * (V != 0)` is 0 when V is 0 and x/V otherwise |
| `Estimators.EstimatorMasking` | easyvvuq/analysis/qmc_analysis.py:316-317 | both estimators are exactly 0 where the variance of the stacked M2, M1 evaluations is 0; otherwise they are `mean(f_M1*(f_Ni-f_M2))/V` and `0.5*mean((f_M2-f_Ni)^2)/V` |
| `Estimators.TotalOrderNonnegative` | easyvvuq/analysis/qmc_analysis.py:341-342 | the total-order estimate is ≥ 0 |
| `Estimators.ConstantOutputGivesZero` | easyvvuq/analysis/qmc_analysis.py:316-317 | a constant output gives first- and total-order indices of 0 |
| `Estimators.NoEffectGivesZero` | easyvvuq/analysis/qmc_analysis.py:341-342 | when `f_Ni == f_M2` (the parameter has no effect), both indices are 0 |
| `Estimators.FirstOrderVec` | easyvvuq/analysis/qmc_analysis.py:300-317 | `_first_order` on matrices gives one index per output element |
| `Estimators.TotalOrderVec` | easyvvuq/analysis/qmc_analysis.py:321-342 | `_total_order` on matrices gives one index per output element |
| `Estimators.StackedVariance` | easyvvuq/analysis/qmc_analysis.py:316 | the masked variance of output element e is `np.var(np.r_[f_M2, f_M1], axis=0)[e]` |
| `Estimators.TotalOrderVecNonnegative` | easyvvuq/analysis/qmc_analysis.py:341-342 | every element of the total-order vector is ≥ 0 |
| `Bootstrap.Resample` | easyvvuq/analysis/qmc_analysis.py:229-230 | the gathered `f[r][:, b]` has row k equal to `f[r[k][b]]` |
| `Bootstrap.ResampleShape` | easyvvuq/analysis/qmc_analysis.py:229-230 | resampling keeps the width of the evaluations |
| `Bootstrap.FirstReplicates` | easyvvuq/analysis/qmc_analysis.py:229 | the vectorised branch gives one first-order replicate per bootstrap sample |
| `Bootstrap.TotalReplicates` | easyvvuq/analysis/qmc_analysis.py:230 | the vectorised branch gives one total-order replicate per bootstrap sample |
| `Bootstrap.TotalReplicatesNonnegative` | easyvvuq/analysis/qmc_analysis.py:230 | every total-order replicate is ≥ 0 in every element |
| `Bootstrap.SequentialAsWritten` | easyvvuq/analysis/qmc_analysis.py:237-240 | the sequential loop as written resamples with row `r[i]` and, when it completes, gives `n_bootstrap` replicates |
| `Bootstrap.SequentialAsWrittenFails` | easyvvuq/analysis/qmc_analysis.py:237-240 | the sequential loop as written raises IndexError iff `n_bootstrap > n_mc`; the vectorised branch always gives `n_bootstrap` replicates |
| `Bootstrap.SequentialBranchWithDefaults` | easyvvuq/analysis/qmc_analysis.py:223-240 | with n_mc = 100, n_qoi = 101 and the default 1000 replicates, the size test selects the sequential branch, which raises IndexError |
| `Bootstrap.SequentialBootstrap` | easyvvuq/analysis/qmc_analysis.py:233-240 | the corrected sequential loop, which gathers with column `r[:, i]` one replicate at a time, fills the two preallocated arrays with exactly the vectorised branch's replicates |
| `Bootstrap.SequentialStep` | easyvvuq/analysis/qmc_analysis.py:237-240 | one corrected pass, the estimators on the rows that column `r[:, i]` draws, gives replicate i of the vectorised branch |
| `Bootstrap.IndexColumn` | easyvvuq/analysis/qmc_analysis.py:237-240 | `r[:, i]` has one index per row of `r`, entry k being `r[k][i]` |
| `Bootstrap.ColumnResample` | easyvvuq/analysis/qmc_analysis.py:225-240 | gathering the rows that column `r[:, i]` names is the vectorised gather `f[r][:, i]` |
| `Bootstrap.UseVectorised` | easyvvuq/analysis/qmc_analysis.py:223 | the size test: the vectorised branch is taken iff `n_mc·n_bootstrap·n_qoi ≤ 10^7` |
| `Bootstrap.VectorisedMonotone` | easyvvuq/analysis/qmc_analysis.py:223 | asking for fewer replicates never turns the vectorised strategy into the sequential one |
| `Bootstrap.EstimateAll` | easyvvuq/analysis/qmc_analysis.py:216-251 | the loop over the `vary` keys on the separated evaluations gives exactly `AllIndices`: one item per parameter, in key order |
| `Bootstrap.SeparableShape` | easyvvuq/analysis/qmc_analysis.py:204 | on whole blocks of one width, `n_mc = len/(n_params+2)` is positive and the decomposition has n_mc rows per part |
| `Bootstrap.BootstrapSpec` | easyvvuq/analysis/qmc_analysis.py:193-253 | AssertionError iff the samples are empty, alpha is not in (0, 1) or `n_bootstrap ≤ 0`; success iff, in addition, the stream is whole blocks of one width; the four dictionaries have exactly the `vary` keys, in order |
| `Bootstrap.BootstrapEstimates` | easyvvuq/analysis/qmc_analysis.py:213-220 | the stored point estimates of parameter j are the estimators on M2, M1 and N_j; the total-order ones are ≥ 0 |
| `Bootstrap.ParamBootstrap` | easyvvuq/analysis/qmc_analysis.py:219-246 | whichever branch the size test selects, the point estimates and the two confidence intervals are those of the vectorised replicates |
| `Bootstrap.SobolBootstrap` | easyvvuq/analysis/qmc_analysis.py:168-253 | the step-by-step computation equals `BootstrapSpec` |
| `SampleTable.Unique` | easyvvuq/analysis/qmc_analysis.py:122 | `unique()` keeps exactly the values present, each once |
| `SampleTable.UniqueOrder` | easyvvuq/analysis/qmc_analysis.py:122 | the values of `unique()` come in the order of their first appearance in the column |
| `SampleTable.PyIndex` | easyvvuq/analysis/qmc_analysis.py:125 | `values[i]` succeeds iff `-len ≤ i < len`; a negative i counts from the end |
| `SampleTable.Selected` | easyvvuq/analysis/qmc_analysis.py:124-127 | with no `output_index` the values are kept whole; otherwise the selection succeeds iff the index is in range, and then it is the one value `values[output_index]` (negative indices from the end) |
| `SampleTable.FrameCell` | easyvvuq/analysis/qmc_analysis.py:125-127 | `data_frame.loc[data_frame['run_id'] == run_id][k].values` holds one value per row labelled with the run |
| `SampleTable.RowsOf` | easyvvuq/analysis/qmc_analysis.py:125-127 | the filter keeps one value per row labelled with the run, each taken from such a row |
| `SampleTable.Collected` | easyvvuq/analysis/qmc_analysis.py:120 | the result dictionary has exactly the `qoi_cols` as keys |
| `SampleTable.FrameStep` | easyvvuq/analysis/qmc_analysis.py:124-128 | one DataFrame lookup appends the run's values, or raises KeyError for a missing column and IndexError for an out-of-range `output_index` |
| `SampleTable.MaxRun` | easyvvuq/analysis/qmc_analysis.py:133 | `np.max(run_id_int)` is a run number of some key and no key's number exceeds it |
| `SampleTable.LookupRun` | easyvvuq/analysis/qmc_analysis.py:135-137 | `data_frame[k]['Run_' + str(j)]` raises KeyError for a missing label, otherwise selects from the stored evaluation |
| `SampleTable.RunsUpTo` | easyvvuq/analysis/qmc_analysis.py:133-137 | the runs 1..n succeed iff every lookup does, and element j-1 is the lookup of run j |
| `SampleTable.DictColumnContents` | easyvvuq/analysis/qmc_analysis.py:129-137 | the list for one QoI has one entry per run 1..max, whatever the key order; entry j-1 is the value under `"Run_" + str(j)`; a missing label in that range is an error |
| `SampleTable.AppendRun` | easyvvuq/analysis/qmc_analysis.py:123-128 | the inner loop over the QoIs for one run raises the first exception of its steps, or extends the lists by them |
| `SampleTable.SamplesFromFrame` | easyvvuq/analysis/qmc_analysis.py:121-128 | the DataFrame branch's nested loop returns the first exception of the steps, or the collected lists |
| `SampleTable.LargestRun` | easyvvuq/analysis/qmc_analysis.py:132-133 | the loop over the keys raises ValueError on an unparsable label or on no runs, and otherwise returns the largest run number |
| `SampleTable.DictColumn` | easyvvuq/analysis/qmc_analysis.py:131-137 | the dictionary branch for one QoI computes `DictColumnOf` |
| `SampleTable.SamplesFromDict` | easyvvuq/analysis/qmc_analysis.py:129-137 | the dictionary branch's loop returns the first exception of its steps, or the collected lists |
| `SampleTable.AppendColumn` | easyvvuq/analysis/qmc_analysis.py:131-137 | the dictionary branch for one QoI k, after the steps so far: the first exception of those steps followed by k's steps (`DictKeySteps`: KeyError for a missing k, otherwise the error or the appends of its run column), or the lists collected from them |
| `SampleTable.GetSamples` | easyvvuq/analysis/qmc_analysis.py:106-138 | `get_samples` dispatches on the input type and equals `SamplesOf` (empty lists for any other type) |
| `SampleTable.FrameSamplesOk` | easyvvuq/analysis/qmc_analysis.py:121-128 | the DataFrame branch succeeds iff every QoI column exists and every run's values can be selected |
| `SampleTable.FrameSamplesContents` | easyvvuq/analysis/qmc_analysis.py:121-128 | the list of a QoI holds one entry per distinct run in first-appearance order (repeated once per listing of the QoI), each the run's values |
| `SampleTable.DictSamplesOk` | easyvvuq/analysis/qmc_analysis.py:129-137 | the dictionary branch succeeds iff every QoI is a key and its run dictionary is complete |
| `SampleTable.DictSamplesContents` | easyvvuq/analysis/qmc_analysis.py:129-137 | with the dictionary input, the list of a QoI is its run list 1..max, repeated once per listing of the QoI |
| `QmcAnalysis.NewAnalysis` | easyvvuq/analysis/qmc_analysis.py:24-43 | RuntimeError iff the sampler is neither QMC nor MC; `qoi_cols` defaults to the `vary` keys |
| `QmcAnalysis.ComputeResults` | easyvvuq/analysis/qmc_analysis.py:77-104 | the loop over the QoIs equals `ResultsOf` |
| `QmcAnalysis.QoiResult` | easyvvuq/analysis/qmc_analysis.py:93-102 | the loop body for one QoI: KeyError without samples; ValueError for evaluations of different widths; on success, the mean and variance per element and the result of `sobol_bootstrap` |
| `QmcAnalysis.ResultsOk` | easyvvuq/analysis/qmc_analysis.py:93-98 | `compute_results` succeeds iff every QoI has samples that form whole blocks of one width |
| `QmcAnalysis.ResultsKeys` | easyvvuq/analysis/qmc_analysis.py:84-102 | each of the five result maps has exactly one entry per QoI |
| `QmcAnalysis.ResultsEntry` | easyvvuq/analysis/qmc_analysis.py:93-102 | a QoI's entries are its moments and the four `sobol_bootstrap` dictionaries (from its last listing) |
| `QmcAnalysis.QoiResultMeaning` | easyvvuq/analysis/qmc_analysis.py:94-102 | the moments are the per-element mean and a non-negative variance; the Sobol dictionaries have the `vary` keys; every total-order index is ≥ 0 |
| `QmcAnalysis.SampledHasKeys` | easyvvuq/analysis/qmc_analysis.py:161 | each campaign's samples, when read, have every QoI as a key |
| `QmcAnalysis.MergedUpTo` | easyvvuq/analysis/qmc_analysis.py:157-164 | a successful merge has every QoI as a key |
| `QmcAnalysis.AddSamples` | easyvvuq/analysis/qmc_analysis.py:163-164 | the loop `samples[k] += sample_dict[k]` over `qoi_cols` equals `AddAll` |
| `QmcAnalysis.MergeCampaign` | easyvvuq/analysis/qmc_analysis.py:159-164 | one pass of the campaign loop takes the merge from t to t+1 campaigns |
| `QmcAnalysis.MergeSamples` | easyvvuq/analysis/qmc_analysis.py:155-164 | the campaign loop equals the merge of all campaigns' samples |
| `QmcAnalysis.MergeCampaigns` | easyvvuq/analysis/qmc_analysis.py:140-166 | `merge_campaigns` raises the merge's exception, or returns `compute_results` of the merged samples |
| `QmcAnalysis.MergedOk` | easyvvuq/analysis/qmc_analysis.py:159-164 | merging succeeds iff every campaign's samples can be read |
| `QmcAnalysis.MergedConcatenation` | easyvvuq/analysis/qmc_analysis.py:157-164 | for a QoI listed once, the merged list is the concatenation of the campaigns' lists in order, and its length is the sum of their lengths |
| `QmcAnalysis.AnalyseOf` | easyvvuq/analysis/qmc_analysis.py:68-70 | an empty DataFrame raises RuntimeError |
| `QmcAnalysis.Analyse` | easyvvuq/analysis/qmc_analysis.py:53-75 | `analyse` is the empty check, then `get_samples`, then `compute_results` |
| `Prominence.Join` | easyvvuq/actions/execute_prominence.py:182-183 | `os.path.join(a, b)` is b when b is absolute; otherwise it starts with a; it ends with b, after a separator when a is non-empty |
| `Prominence.Basename` | easyvvuq/actions/execute_prominence.py:132 | `os.path.basename` contains no `/` |
| `Prominence.BasenameIsLastPart` | easyvvuq/actions/execute_prominence.py:132 | the base name is the suffix of the path after its last `/` |
| `Prominence.BasenameOfJoin` | easyvvuq/actions/execute_prominence.py:132 | the base name of a directory joined with a plain file name is that file name |
| `Prominence.ActionStatusProminence.constructor` | easyvvuq/actions/execute_prominence.py:54-61 | a fresh status object is not started, has not succeeded and has no id |
| `Prominence.ActionStatusProminence.AddInputFiles` | easyvvuq/actions/execute_prominence.py:126-134 | one input entry per file name, in order, holding the base name and the encoded content |
| `Prominence.ActionStatusProminence.Start` | easyvvuq/actions/execute_prominence.py:72-86 | a second start raises RuntimeError and changes nothing; otherwise the inputs are added, id becomes 0 and the job is submitted; 201 starts it with the returned id if any; any other answer, or no token, raises with `started` false; `succeeded` is unchanged |
| `Prominence.ActionStatusProminence.Finished` | easyvvuq/actions/execute_prominence.py:93-108 | the answer is `StatusOf`; a started job never gets the TypeError of a missing id; `succeeded` becomes true on `completed` and never turns false; nothing else changes |
| `Prominence.ActionStatusProminence.Started` | easyvvuq/actions/execute_prominence.py:88-91 | `started()` reads the started flag; `Start` sets it only on a 201 answer |
| `Prominence.ActionStatusProminence.Succeeded` | easyvvuq/actions/execute_prominence.py:120-124 | `succeeded()` reads the succeeded flag; `Finished` sets it only on `completed` |
| `Prominence.ActionStatusProminence.Finalise` | easyvvuq/actions/execute_prominence.py:110-118 | raises what `finished()` raises; raises RuntimeError unless the job is finished and has succeeded; then writes the job's output to the output file when one is set, which raises RuntimeError when the token read again for that request is missing |
| `Prominence.StatusOf` | easyvvuq/actions/execute_prominence.py:96-108 | TypeError for a job without id; RuntimeError without a token or on an answer other than 200; otherwise true iff the status is present and neither `pending` nor `running` |
| `Prominence.FinalOutcome` | easyvvuq/actions/execute_prominence.py:113-118 | `finalise` raises unless finished and succeeded, writes nothing without an output file, and needs the token read for the output request |
| `Prominence.CompletedIsTerminal` | easyvvuq/actions/execute_prominence.py:100-106 | a `completed` job is reported finished |
| `Prominence.FinaliseSucceeds` | easyvvuq/actions/execute_prominence.py:113-114 | `finalise` passes its check iff the status query goes through, reports the job finished, success has been recorded, and a token is there for the output request when an output file is set |
| `Prominence.ExecuteProminence.constructor` | easyvvuq/actions/execute_prominence.py:164-174 | the template, the input and output names and the URL are stored as given |
| `Prominence.ExecuteProminence.RunIn` | easyvvuq/actions/execute_prominence.py:186-190 | every task is kept in order, with `workdir` set to the target directory and its other keys unchanged |
| `Prominence.ExecuteProminence.ActOnDir` | easyvvuq/actions/execute_prominence.py:176-196 | KeyError iff the template has no `tasks`; otherwise a fresh, not started status object whose job is named after the target and whose tasks all run there; the other keys are kept; the input files are the target joined with each name, in order; there is an output file only when a non-empty name is set; the template is unchanged |

## Left out

- **Standard deviation.** `'std'` in the statistical moments is left out. It needs a square root over the reals.
- **Floating point.** Every computation is over exact reals. Rounding, NaN and infinities of numpy are not modelled.
- **Zero variance, converse direction.** A zero variance implies a constant output, but this is not proved. Only the converse (`Statistics.ConstantVarianceZero`) and the non-negativity of the variance are proved.
- **The random draw.** `np.random.randint` and the `confidence_interval` routine of `ensemble_boot` are parameters. The `ensemble_boot` module is not part of this model.
- **Printing.** The `print` calls that name the bootstrap branch are left out. They are output only.
- `Bootstrap.BootstrapSpec`: a sample count that is not a whole number of `n_params + 2` blocks is a ValueError in the model. numpy raises for most such counts, but not all. With `n_params + 3` evaluations, for example, the single M1 and N_i rows broadcast against the two M2 rows, and numbers come out where the model raises.
- `Bootstrap.BootstrapSpec`: evaluations of different widths in one list are a ValueError in the model. This follows numpy's refusal of ragged arrays, not older numpy's object arrays.
- `Bootstrap.BootstrapSpec`: the sequential branch (when `n_mc·n_bootstrap·n_qoi > 10^7`) is modelled as corrected (see Findings). There the source raises IndexError whenever `n_bootstrap > n_mc`, and otherwise resamples with rows of the index matrix. So the success condition and the replicates stated here are those of the corrected branch. The as-written branch is `Bootstrap.SequentialAsWritten`.
- `Bootstrap.ParamBootstrap`: its sequential branch is the corrected loop, whose replicates equal the vectorised ones. The source's loop instead raises IndexError when `n_bootstrap > n_mc`, and otherwise gives row-resampled replicates (`Bootstrap.SequentialAsWritten`).
- `Bootstrap.SobolBootstrap`: it equals `Bootstrap.BootstrapSpec` and therefore follows the corrected sequential branch, not the IndexError of the source.
- `QmcAnalysis.ResultsOk`: "succeeds iff every QoI has whole blocks" holds for the corrected sequential branch. In the source, a QoI that takes the sequential branch with `n_bootstrap > n_mc` also raises IndexError.
- `QmcAnalysis.ComputeResults`: it reaches `sobol_bootstrap` through `ResultsOf`, so it follows the corrected sequential branch, not the IndexError of the source.
- `QmcAnalysis.MergeCampaigns`: it reaches `sobol_bootstrap` through `ResultsOf`, so it follows the corrected sequential branch, not the IndexError of the source.
- `QmcAnalysis.Analyse`: it reaches `sobol_bootstrap` through `ResultsOf`, so it follows the corrected sequential branch, not the IndexError of the source.
- `RunLabels.ParseInt`: Python's `int()` also accepts surrounding whitespace, digit-separating underscores and Unicode decimal digits other than `0`-`9`, such as Arabic-Indic digits. The model rejects labels with those. Labels written by `'Run_' + str(n)` never contain them.
- **DataFrame without `run_id`.** A DataFrame without a `run_id` column raises AttributeError at `data_frame.run_id.unique()`. In the model, `SampleTable.Frame` always has a `runId` list, so this error cannot arise.
- **Scalar evaluations with `output_index`.** In the dictionary input, a run that stores a scalar raises TypeError when `output_index` is given, because a float cannot be indexed. The model represents every stored value as a vector, so a scalar is the width-1 vector and `SampleTable.PyIndex` selects its element instead of raising. The DataFrame input is not affected, because `.values` is always an array.
- **Output index.** `output_index` is modelled as selecting one element of a vector evaluation. The element is kept as an evaluation of width 1.
- **Sampler type.** The `isinstance` sampler check is reduced to a tag. `element_name`, `element_version` and `output_type` are constants and are left out.
- **Campaign list type.** `merge_campaigns` asserts that its argument is a Python `list`. The model takes a sequence, so that assertion cannot fail.
- `QmcAnalysis.MergedConcatenation`: the concatenation is stated only for a QoI listed once in `qoi_cols`. A QoI listed twice has each campaign's list appended twice per campaign.
- `QmcAnalysis.MergedUpTo`: its own contract states only that every QoI is a key. The contents are stated in `QmcAnalysis.MergedConcatenation` and `QmcAnalysis.MergedOk`.
- **Prominence HTTP and files.** All HTTP exchanges, the retrying session, reading the token file and reading input files with base64 encoding are parameters or left out:
  - each method takes the server's answer and the token as inputs;
  - the content of an input file is the parameter `encoded`;
  - a failure to open an input file is not modelled.
- **Status response shape.** The status query's answer is reduced to its status code and the `status` of its first job. An empty job list, which would raise `IndexError`, is not modelled.
- **`ExecuteProminence` constructor.** The `os.name` check, reading the JSON job configuration and the `PROMINENCE_URL` environment lookup are inputs of the constructor. The `NotImplementedError` on Windows is not modelled.
- **Job description values.** The job description's keys other than `name`, `tasks` and `inputs`, and the task keys other than `workdir`, are abstracted to string maps. They are carried along unchanged.
- **Task records.** A task that is not a dictionary is not modelled.

## Findings

| source | as written | input that shows it | evidently intended | confidence | as-written member | corrected member |
|---|---|---|---|---|---|---|
| easyvvuq/analysis/qmc_analysis.py:237-240 | the sequential bootstrap resamples replicate `i` with row `r[i]` of the `(n_mc, n_bootstrap)` index matrix, so `r[i]` raises IndexError once `i ≥ n_mc`, and otherwise draws `n_bootstrap` rows rather than `n_mc` | n_mc = 100, n_qoi = 101, default n_bootstrap = 1000: the size test (1.01·10^7 > 10^7) picks the sequential branch and `r[100]` is out of range | replicate `i` resamples with column `r[:, i]` (matrices of size `(n_mc, n_qoi)`, as the comment on the loop says), giving the same replicates as the vectorised branch | not executed | `Bootstrap.SequentialAsWritten`, `Bootstrap.SequentialBranchWithDefaults` | `Bootstrap.SequentialBootstrap` |
