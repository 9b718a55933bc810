/** `get_samples`: turning a campaign's collated output into one list of code
    evaluations per quantity of interest.

    The table is either a pandas DataFrame (one row per output element,
    with a `run_id` column and one column per quantity) or a dictionary that
    maps each quantity to a dictionary from run labels `"Run_<n>"` to that
    run's evaluation. */
module SampleTable {
  import opened Wrappers
  import opened Statistics
  import opened RunLabels

  /** A DataFrame: the `run_id` of every row and, per column name, the
      value of every row. */
  datatype Frame = Frame(runId: seq<string>, columns: map<string, seq<real>>)

  predicate WellFormed(f: Frame) {
    forall c :: c in f.columns ==> |f.columns[c]| == |f.runId|
  }

  /** The input of `get_samples`; `OtherTable` is any other Python type,
      for which neither branch runs. */
  datatype Table =
    | FrameTable(frame: Frame)
    | DictTable(runs: map<string, map<string, Eval>>)
    | OtherTable

  /** The position of the first occurrence of `x` in `s`. */
  function FirstIndex(s: seq<string>, x: string): (r: nat)
    requires x in s
    ensures r < |s| && s[r] == x
    ensures forall k :: 0 <= k < r ==> s[k] != x
  {
    if s[0] == x then 0 else 1 + FirstIndex(s[1..], x)
  }

  /** `s.unique()`: each value once, in the order of its first appearance. */
  function Unique(s: seq<string>): (u: seq<string>)
    ensures forall x :: x in u <==> x in s
    ensures forall i, j :: 0 <= i < j < |u| ==> u[i] != u[j]
  {
    if |s| == 0 then []
    else
      var u := Unique(s[..|s| - 1]);
      if s[|s| - 1] in u then u else u + [s[|s| - 1]]
  }

  /** The values of `unique()` come in the order in which they first
      appear. */
  lemma {:induction false} UniqueOrder(s: seq<string>)
    ensures forall i, j :: 0 <= i < j < |Unique(s)| ==>
      FirstIndex(s, Unique(s)[i]) < FirstIndex(s, Unique(s)[j])
  {
    if |s| > 0 {
      var p, last := s[..|s| - 1], s[|s| - 1];
      var u := Unique(p);
      UniqueOrder(p);
      forall x | x in u ensures x in s && FirstIndex(s, x) == FirstIndex(p, x) {
        FirstIndexOfPrefix(s, x);
      }
      forall i, j | 0 <= i < j < |u| ensures FirstIndex(s, u[i]) < FirstIndex(s, u[j]) {
        assert u[i] in u && u[j] in u;
        assert FirstIndex(p, u[i]) < FirstIndex(p, u[j]);
      }
      if last !in u {
        assert FirstIndex(s, last) == |s| - 1 by {
          forall k | 0 <= k < |s| - 1 ensures s[k] != last {
            assert s[k] == p[k];
          }
        }
        var w := u + [last];
        assert Unique(s) == w;
        forall i, j | 0 <= i < j < |w| ensures FirstIndex(s, w[i]) < FirstIndex(s, w[j]) {
          assert w[i] == u[i] && u[i] in u;
          if j < |u| {
            assert w[j] == u[j];
          }
        }
      }
    }
  }

  /** A value that occurs before the last position is first found at the
      same place in the whole sequence as in the prefix without its last
      element. */
  lemma FirstIndexOfPrefix(s: seq<string>, x: string)
    requires |s| > 0 && x in s[..|s| - 1]
    ensures x in s && FirstIndex(s, x) == FirstIndex(s[..|s| - 1], x)
  {
    var p := s[..|s| - 1];
    var b := FirstIndex(p, x);
    assert s[b] == x;
    var a := FirstIndex(s, x);
    assert a <= b;
    assert p[a] == x;
  }

  /** `values[i]` on a Python list or numpy vector: a negative `i` counts
      from the end; anything outside raises `IndexError`. */
  function PyIndex(v: Eval, i: int): (r: Result<real>)
    ensures r.Ok? <==> -|v| <= i < |v|
    ensures 0 <= i < |v| ==> r == Ok(v[i])
    ensures -|v| <= i < 0 ==> r == Ok(v[|v| + i])
  {
    if 0 <= i < |v| then Ok(v[i])
    else if -|v| <= i < 0 then Ok(v[|v| + i])
    else Err(IndexError)
  }

  /** What one `append` adds: the whole evaluation, or its element
      `output_index` as a scalar evaluation. */
  function Selected(v: Eval, outputIndex: Option<int>): (r: Result<Eval>)
    ensures outputIndex.None? ==> r == Ok(v)
    ensures outputIndex.Some? ==> (r.Ok? <==> -|v| <= outputIndex.value < |v|)
    ensures outputIndex.Some? && r.Ok? ==> r.value == [PyIndex(v, outputIndex.value).value]
  {
    match outputIndex
    case None => Ok(v)
    case Some(i) =>
      match PyIndex(v, i)
      case Ok(x) => Ok([x])
      case Err(e) => Err(e)
  }

  // ---------------------------------------------------------------------
  // The appends of `get_samples`, as a sequence of steps.

  /** One step of the nested loops: `samples[key].append(value)`, or the
      exception that ends them. */
  datatype Step = Append(key: string, value: Eval) | Raise(error: Error)

  /** The error of the first `Raise`, if there is one. */
  function FirstRaise(steps: seq<Step>): Option<Error> {
    if |steps| == 0 then None
    else if FirstRaise(steps[..|steps| - 1]).Some? then FirstRaise(steps[..|steps| - 1])
    else if steps[|steps| - 1].Raise? then Some(steps[|steps| - 1].error)
    else None
  }

  /** The values appended under `k`, in order. */
  function Collect(steps: seq<Step>, k: string): seq<Eval> {
    if |steps| == 0 then []
    else
      var last := steps[|steps| - 1];
      Collect(steps[..|steps| - 1], k) + (if last.Append? && last.key == k then [last.value] else [])
  }

  lemma {:induction false} FirstRaiseConcat(a: seq<Step>, b: seq<Step>)
    ensures FirstRaise(a + b) == if FirstRaise(a).Some? then FirstRaise(a) else FirstRaise(b)
    decreases |b|
  {
    if |b| == 0 {
      assert a + b == a;
    } else {
      assert (a + b)[..|a + b| - 1] == a + b[..|b| - 1];
      FirstRaiseConcat(a, b[..|b| - 1]);
    }
  }

  lemma {:induction false} CollectConcat(a: seq<Step>, b: seq<Step>, k: string)
    ensures Collect(a + b, k) == Collect(a, k) + Collect(b, k)
    decreases |b|
  {
    if |b| == 0 {
      assert a + b == a;
    } else {
      assert (a + b)[..|a + b| - 1] == a + b[..|b| - 1];
      CollectConcat(a, b[..|b| - 1], k);
    }
  }

  /** `samples = {k: [] for k in qoi_cols}` after the steps: every list holds
      what was appended under its key. */
  function Collected(qoiCols: seq<string>, steps: seq<Step>): (m: map<string, seq<Eval>>)
    ensures m.Keys == set k | k in qoiCols
  {
    map k | k in qoiCols :: Collect(steps, k)
  }

  /** Running the steps: the first exception, or the dictionary built. */
  function Outcome(qoiCols: seq<string>, steps: seq<Step>): Result<map<string, seq<Eval>>> {
    match FirstRaise(steps)
    case Some(e) => Err(e)
    case None => Ok(Collected(qoiCols, steps))
  }

  function Flatten<T>(ss: seq<seq<T>>): seq<T> {
    if |ss| == 0 then [] else Flatten(ss[..|ss| - 1]) + ss[|ss| - 1]
  }

  lemma FlattenSnoc<T>(ss: seq<seq<T>>, n: nat)
    requires n < |ss|
    ensures Flatten(ss[..n + 1]) == Flatten(ss[..n]) + ss[n]
  {
    assert ss[..n + 1][..n] == ss[..n];
  }

  /** Appending `value` under `k` to the dictionary of `done`. */
  lemma AppendStep(qoiCols: seq<string>, done: seq<Step>, k: string, value: Eval)
    requires k in qoiCols
    ensures Collected(qoiCols, done + [Append(k, value)])
         == Collected(qoiCols, done)[k := Collected(qoiCols, done)[k] + [value]]
    ensures FirstRaise(done + [Append(k, value)]) == FirstRaise(done)
  {
    FirstRaiseConcat(done, [Append(k, value)]);
    assert (done + [Append(k, value)])[..|done|] == done;
    var after := Collected(qoiCols, done + [Append(k, value)]);
    var before := Collected(qoiCols, done);
    forall k' | k' in qoiCols
      ensures after[k'] == before[k := before[k] + [value]][k']
    {
      assert after[k'] == Collect(done, k') + (if k == k' then [value] else []);
    }
  }

  // ---------------------------------------------------------------------
  // The DataFrame branch.

  /** `data_frame.loc[data_frame['run_id'] == run][k].values`: the values of
      column `k` on the rows of this run, in row order. */
  function FrameCell(f: Frame, k: string, run: string): (v: Eval)
    requires WellFormed(f) && k in f.columns
    ensures |v| == multiset(f.runId)[run]
  {
    RowsOf(f.runId, f.columns[k], run)
  }

  /** The entries of `col` on the rows labelled `run`, in row order: one per
      such row, each taken from one of them. */
  function RowsOf(runId: seq<string>, col: seq<real>, run: string): (v: seq<real>)
    requires |col| == |runId|
    ensures |v| == multiset(runId)[run]
    ensures forall x :: x in v ==> exists i :: 0 <= i < |runId| && runId[i] == run && col[i] == x
  {
    if |runId| == 0 then []
    else
      var n := |runId| - 1;
      assert runId == runId[..n] + [runId[n]];
      var v := RowsOf(runId[..n], col[..n], run);
      assert forall x :: x in v ==> exists i :: 0 <= i < n && runId[i] == run && col[i] == x;
      v + (if runId[n] == run then [col[n]] else [])
  }

  /** Column `k` exists and the run's values can be selected. */
  predicate Extractable(f: Frame, run: string, k: string, outputIndex: Option<int>)
    requires WellFormed(f)
  {
    k in f.columns && Selected(FrameCell(f, k, run), outputIndex).Ok?
  }

  /** What the DataFrame branch appends for this run and quantity. */
  function FrameValue(f: Frame, run: string, k: string, outputIndex: Option<int>): Eval
    requires WellFormed(f)
  {
    if Extractable(f, run, k, outputIndex) then Selected(FrameCell(f, k, run), outputIndex).value else []
  }

  /** The inner body of the DataFrame loop for one run and one quantity:
      `KeyError` for a missing column, `IndexError` for an `output_index`
      the run's values do not have, otherwise one append. */
  function FrameStep(f: Frame, run: string, k: string, outputIndex: Option<int>): (s: Step)
    requires WellFormed(f)
    ensures s.Append? <==> Extractable(f, run, k, outputIndex)
    ensures s.Append? ==> s == Append(k, FrameValue(f, run, k, outputIndex))
    ensures k !in f.columns ==> s == Raise(KeyError)
    ensures k in f.columns && !Extractable(f, run, k, outputIndex) ==> s == Raise(IndexError)
  {
    if k !in f.columns then Raise(KeyError)
    else
      match Selected(FrameCell(f, k, run), outputIndex)
      case Ok(v) => Append(k, v)
      case Err(e) => Raise(e)
  }

  function FrameRunSteps(f: Frame, run: string, qoiCols: seq<string>, outputIndex: Option<int>): (s: seq<Step>)
    requires WellFormed(f)
    ensures |s| == |qoiCols|
  {
    seq(|qoiCols|, i requires 0 <= i < |qoiCols| => FrameStep(f, run, qoiCols[i], outputIndex))
  }

  /** `for run_id in data_frame.run_id.unique(): for k in qoi_cols: ...`. */
  function FrameSteps(f: Frame, qoiCols: seq<string>, outputIndex: Option<int>): seq<Step>
    requires WellFormed(f)
  {
    var runs := Unique(f.runId);
    Flatten(seq(|runs|, u requires 0 <= u < |runs| => FrameRunSteps(f, runs[u], qoiCols, outputIndex)))
  }

  // ---------------------------------------------------------------------
  // The dictionary branch.

  /** Every key of the run dictionary names a run: `int(key.split('Run_')[-1])`
      does not raise. */
  predicate LabelsParse(runs: map<string, Eval>) {
    forall key :: key in runs ==> ParseRunLabel(key).Some?
  }

  /** The run number a key names. */
  function RunNumber(runs: map<string, Eval>, key: string): int
    requires LabelsParse(runs) && key in runs
  {
    ParseRunLabel(key).value
  }

  /** `np.max(run_id_int)`: the largest run number among the keys. */
  ghost function MaxRun(runs: map<string, Eval>): (m: int)
    requires LabelsParse(runs) && runs != map[]
    ensures exists key :: key in runs && RunNumber(runs, key) == m
    ensures forall key :: key in runs ==> RunNumber(runs, key) <= m
  {
    var key :| key in runs;
    var rest := runs - {key};
    assert forall k :: k in runs ==> k == key || k in rest;
    if rest == map[] then RunNumber(runs, key)
    else
      var m := MaxRun(rest);
      assert forall k :: k in rest ==> RunNumber(rest, k) == RunNumber(runs, k);
      if RunNumber(runs, key) > m then RunNumber(runs, key) else m
  }

  /** `data_frame[k]['Run_' + str(j)]`, or its element `output_index`. */
  function LookupRun(runs: map<string, Eval>, j: nat, outputIndex: Option<int>): (r: Result<Eval>)
    ensures RunLabel(j) !in runs ==> r == Err(KeyError)
    ensures RunLabel(j) in runs ==> r == Selected(runs[RunLabel(j)], outputIndex)
  {
    if RunLabel(j) !in runs then Err(KeyError) else Selected(runs[RunLabel(j)], outputIndex)
  }

  /** The lookups for runs `1 .. n` in ascending order, stopping at the
      first exception. */
  function RunsUpTo(runs: map<string, Eval>, n: nat, outputIndex: Option<int>): (r: Result<seq<Eval>>)
    ensures r.Ok? ==> |r.value| == n
    ensures r.Ok? <==> forall j :: 1 <= j <= n ==> LookupRun(runs, j, outputIndex).Ok?
    ensures r.Ok? ==> forall j :: 1 <= j <= n ==> r.value[j - 1] == LookupRun(runs, j, outputIndex).value
  {
    if n == 0 then Ok([])
    else
      match RunsUpTo(runs, n - 1, outputIndex)
      case Err(e) => Err(e)
      case Ok(vs) =>
        match LookupRun(runs, n, outputIndex)
        case Err(e) => Err(e)
        case Ok(v) => Ok(vs + [v])
  }

  /** The list that the dictionary branch builds for one quantity from its
      run dictionary: `ValueError` from `int` or from `np.max` of no runs,
      then the runs `1 .. max` in ascending order whatever the order of
      the keys. */
  ghost function DictColumnOf(runs: map<string, Eval>, outputIndex: Option<int>): (r: Result<seq<Eval>>)
  {
    if !LabelsParse(runs) || runs == map[] then Err(ValueError)
    else
      var m := MaxRun(runs);
      RunsUpTo(runs, if m < 1 then 0 else m as nat, outputIndex)
  }

  /** The promised behaviour of the dictionary branch: the list has one
      evaluation per run number from 1 to the largest one, element `j - 1`
      is the one stored under `"Run_" + str(j)`, and a missing label in
      that range is a `KeyError`. */
  lemma DictColumnContents(runs: map<string, Eval>, outputIndex: Option<int>)
    requires LabelsParse(runs) && runs != map[]
    ensures var m := MaxRun(runs);
      && (DictColumnOf(runs, outputIndex).Ok? ==>
            && |DictColumnOf(runs, outputIndex).value| == (if m < 1 then 0 else m)
            && (forall j :: 1 <= j <= m ==> RunLabel(j) in runs)
            && (forall j :: 1 <= j <= m ==>
                  Ok(DictColumnOf(runs, outputIndex).value[j - 1]) == Selected(runs[RunLabel(j)], outputIndex)))
      && (forall j :: 1 <= j <= m && RunLabel(j) !in runs ==> DictColumnOf(runs, outputIndex).Err?)
  {
    var m := MaxRun(runs);
    forall j | 1 <= j <= m && DictColumnOf(runs, outputIndex).Ok?
      ensures RunLabel(j) in runs
      ensures Ok(DictColumnOf(runs, outputIndex).value[j - 1]) == Selected(runs[RunLabel(j)], outputIndex)
    {
      assert LookupRun(runs, j, outputIndex).Ok?;
    }
  }

  /** The steps for quantity `k`: one exception, or one append per run. */
  ghost function DictKeySteps(table: map<string, map<string, Eval>>, k: string, outputIndex: Option<int>): seq<Step> {
    if k !in table then [Raise(KeyError)]
    else
      match DictColumnOf(table[k], outputIndex)
      case Err(e) => [Raise(e)]
      case Ok(vs) => Appends(k, vs)
  }

  /** One `append` under `k` per value, in order. */
  function Appends(k: string, vs: seq<Eval>): (s: seq<Step>)
    ensures |s| == |vs|
  {
    seq(|vs|, j requires 0 <= j < |vs| => Append(k, vs[j]))
  }

  lemma {:induction false} CollectAppends(qoiCols: seq<string>, done: seq<Step>, k: string, vs: seq<Eval>)
    requires k in qoiCols && FirstRaise(done).None?
    ensures FirstRaise(done + Appends(k, vs)).None?
    ensures Collected(qoiCols, done + Appends(k, vs))
         == Collected(qoiCols, done)[k := Collected(qoiCols, done)[k] + vs]
    decreases |vs|
  {
    if |vs| == 0 {
      assert done + Appends(k, vs) == done;
      assert Collected(qoiCols, done)[k] + vs == Collected(qoiCols, done)[k];
    } else {
      CollectAppends(qoiCols, done, k, vs[..|vs| - 1]);
      CollectAppendsStep(qoiCols, done, k, vs[..|vs| - 1], vs[|vs| - 1]);
      assert vs == vs[..|vs| - 1] + [vs[|vs| - 1]];
    }
  }

  lemma CollectAppendsStep(qoiCols: seq<string>, done: seq<Step>, k: string, init: seq<Eval>, last: Eval)
    requires k in qoiCols
    requires FirstRaise(done + Appends(k, init)).None?
    requires Collected(qoiCols, done + Appends(k, init))
          == Collected(qoiCols, done)[k := Collected(qoiCols, done)[k] + init]
    ensures FirstRaise(done + Appends(k, init + [last])).None?
    ensures Collected(qoiCols, done + Appends(k, init + [last]))
         == Collected(qoiCols, done)[k := Collected(qoiCols, done)[k] + (init + [last])]
  {
    var front := done + Appends(k, init);
    AppendsSnoc(done, k, init, last);
    AppendStep(qoiCols, front, k, last);
    ExtendTwice(Collected(qoiCols, done), Collected(qoiCols, front), k, init, last);
  }

  lemma AppendsSnoc(done: seq<Step>, k: string, init: seq<Eval>, last: Eval)
    ensures done + Appends(k, init + [last]) == (done + Appends(k, init)) + [Append(k, last)]
  {
    assert Appends(k, init + [last]) == Appends(k, init) + [Append(k, last)];
  }

  /** Extending the list under `k` by `init` and then by `last`. */
  lemma ExtendTwice(before: map<string, seq<Eval>>, mid: map<string, seq<Eval>>, k: string, init: seq<Eval>, last: Eval)
    requires k in before && mid == before[k := before[k] + init]
    ensures mid[k := mid[k] + [last]] == before[k := before[k] + (init + [last])]
  {
    assert mid[k] + [last] == before[k] + (init + [last]);
  }

  /** `for k in qoi_cols: ... for run_id in range(1, max + 1): ...`. */
  ghost function DictSteps(table: map<string, map<string, Eval>>, qoiCols: seq<string>, outputIndex: Option<int>): seq<Step> {
    Flatten(seq(|qoiCols|, i requires 0 <= i < |qoiCols| => DictKeySteps(table, qoiCols[i], outputIndex)))
  }

  /** `get_samples(data_frame, output_index=...)`: the per-quantity lists, or
      the exception raised. */
  ghost function SamplesOf(qoiCols: seq<string>, t: Table, outputIndex: Option<int>): Result<map<string, seq<Eval>>>
    requires t.FrameTable? ==> WellFormed(t.frame)
  {
    match t
    case FrameTable(f) => Outcome(qoiCols, FrameSteps(f, qoiCols, outputIndex))
    case DictTable(runs) => Outcome(qoiCols, DictSteps(runs, qoiCols, outputIndex))
    case OtherTable => Outcome(qoiCols, [])
  }

  // ---------------------------------------------------------------------
  // The loops.

  /** The DataFrame branch: for every run in order of first appearance, and
      for every quantity, append the run's values of that column. */
  method SamplesFromFrame(qoiCols: seq<string>, f: Frame, outputIndex: Option<int>)
    returns (res: Result<map<string, seq<Eval>>>)
    requires WellFormed(f)
    ensures res == Outcome(qoiCols, FrameSteps(f, qoiCols, outputIndex))
  {
    var runs := Unique(f.runId);
    ghost var blocks := seq(|runs|, u requires 0 <= u < |runs| => FrameRunSteps(f, runs[u], qoiCols, outputIndex));
    assert FrameSteps(f, qoiCols, outputIndex) == Flatten(blocks);
    var samples: map<string, seq<Eval>> := map k | k in qoiCols :: [];
    assert samples == Collected(qoiCols, []);
    for u := 0 to |runs|
      invariant FirstRaise(Flatten(blocks[..u])).None?
      invariant samples == Collected(qoiCols, Flatten(blocks[..u]))
    {
      FlattenSnoc(blocks, u);
      var err;
      samples, err := AppendRun(qoiCols, f, runs[u], outputIndex, samples, Flatten(blocks[..u]));
      if err.Some? {
        FlattenRest(blocks, u + 1);
        FirstRaiseConcat(Flatten(blocks[..u + 1]), Flatten(blocks[u + 1..]));
        return Err(err.value);
      }
    }
    assert blocks[..|runs|] == blocks;
    res := Ok(samples);
  }

  /** The inner loop of the DataFrame branch, for one run, after the steps
      `done`. */
  method AppendRun(qoiCols: seq<string>, f: Frame, run: string, outputIndex: Option<int>,
                   samples0: map<string, seq<Eval>>, ghost done: seq<Step>)
    returns (samples: map<string, seq<Eval>>, err: Option<Error>)
    requires WellFormed(f) && FirstRaise(done).None? && samples0 == Collected(qoiCols, done)
    ensures err == FirstRaise(done + FrameRunSteps(f, run, qoiCols, outputIndex))
    ensures err.None? ==> samples == Collected(qoiCols, done + FrameRunSteps(f, run, qoiCols, outputIndex))
  {
    ghost var block := FrameRunSteps(f, run, qoiCols, outputIndex);
    samples := samples0;
    assert done + block[..0] == done;
    for i := 0 to |qoiCols|
      invariant FirstRaise(done + block[..i]).None?
      invariant samples == Collected(qoiCols, done + block[..i])
    {
      assert done + block[..i + 1] == (done + block[..i]) + [block[i]];
      assert done + block == (done + block[..i]) + [block[i]] + block[i + 1..];
      var k := qoiCols[i];
      if k !in f.columns {
        RaiseFirst(done + block[..i], KeyError, block[i + 1..]);
        return samples, Some(KeyError);
      }
      var values := Selected(FrameCell(f, k, run), outputIndex);
      if values.Err? {
        RaiseFirst(done + block[..i], values.error, block[i + 1..]);
        return samples, Some(values.error);
      }
      AppendStep(qoiCols, done + block[..i], k, values.value);
      samples := samples[k := samples[k] + [values.value]];
    }
    assert block[..|qoiCols|] == block;
    err := None;
  }

  /** A `Raise` after error-free steps is the first one. */
  lemma RaiseFirst(done: seq<Step>, e: Error, rest: seq<Step>)
    requires FirstRaise(done).None?
    ensures FirstRaise(done + [Raise(e)] + rest) == Some(e)
  {
    FirstRaiseConcat(done, [Raise(e)]);
    FirstRaiseConcat(done + [Raise(e)], rest);
  }

  /** The flattening splits at any block. */
  lemma FlattenRest<T>(blocks: seq<seq<T>>, u: nat)
    requires u <= |blocks|
    ensures Flatten(blocks) == Flatten(blocks[..u]) + Flatten(blocks[u..])
  {
    assert blocks == blocks[..u] + blocks[u..];
    FlattenConcat(blocks[..u], blocks[u..]);
  }

  lemma {:induction false} FlattenConcat<T>(a: seq<seq<T>>, b: seq<seq<T>>)
    ensures Flatten(a + b) == Flatten(a) + Flatten(b)
    decreases |b|
  {
    if |b| == 0 {
      assert a + b == a;
    } else {
      assert (a + b)[..|a + b| - 1] == a + b[..|b| - 1];
      FlattenConcat(a, b[..|b| - 1]);
    }
  }

  // ---------------------------------------------------------------------
  // The dictionary branch's loops.

  /** `run_id_int = [int(run_id.split('Run_')[-1]) ...]` and `np.max` of it:
      `ValueError` when a key names no run or there are no keys. */
  method LargestRun(runs: map<string, Eval>) returns (res: Result<int>)
    ensures !LabelsParse(runs) || runs == map[] ==> res == Err(ValueError)
    ensures LabelsParse(runs) && runs != map[] ==> res == Ok(MaxRun(runs))
  {
    var rest := runs;
    var best: Option<int> := None;
    while rest != map[]
      invariant rest.Keys <= runs.Keys
      invariant forall key :: key in runs && key !in rest ==> ParseRunLabel(key).Some?
      invariant best.None? <==> rest == runs
      invariant best.Some? ==> exists key :: key in runs && key !in rest && ParseRunLabel(key) == Some(best.value)
      invariant best.Some? ==> forall key :: key in runs && key !in rest ==> ParseRunLabel(key).value <= best.value
      invariant forall key :: key in rest ==> rest[key] == runs[key]
      decreases |rest|
    {
      var key :| key in rest;
      var n := ParseRunLabel(key);
      if n.None? {
        return Err(ValueError);
      }
      if best.None? || n.value > best.value {
        best := Some(n.value);
      }
      assert key in rest;
      rest := rest - {key};
    }
    if best.None? {
      return Err(ValueError);
    }
    assert forall key :: key in runs ==> key !in rest;
    MaxRunUnique(runs, best.value);
    res := Ok(best.value);
  }

  /** The largest run number is the only number that is one of them and
      bounds them all. */
  lemma MaxRunUnique(runs: map<string, Eval>, m: int)
    requires LabelsParse(runs) && runs != map[]
    requires exists key :: key in runs && RunNumber(runs, key) == m
    requires forall key :: key in runs ==> RunNumber(runs, key) <= m
    ensures m == MaxRun(runs)
  {
    var key :| key in runs && RunNumber(runs, key) == MaxRun(runs);
    var key' :| key' in runs && RunNumber(runs, key') == m;
  }

  /** The list of evaluations of one quantity: the run number loop, then
      `for run_id in range(1, max + 1)`. */
  method DictColumn(runs: map<string, Eval>, outputIndex: Option<int>) returns (res: Result<seq<Eval>>)
    ensures res == DictColumnOf(runs, outputIndex)
  {
    var top := LargestRun(runs);
    if top.Err? {
      return Err(top.error);
    }
    var n: nat := if top.value < 1 then 0 else top.value as nat;
    var values: seq<Eval> := [];
    for j := 1 to n + 1
      invariant RunsUpTo(runs, j - 1, outputIndex) == Ok(values)
    {
      var v := LookupRun(runs, j, outputIndex);
      if v.Err? {
        RunsUpToStops(runs, j, n, outputIndex);
        return Err(v.error);
      }
      values := values + [v.value];
    }
    res := Ok(values);
  }

  /** Once a lookup raised, the later runs are not looked up. */
  lemma {:induction false} RunsUpToStops(runs: map<string, Eval>, j: nat, n: nat, outputIndex: Option<int>)
    requires j <= n && RunsUpTo(runs, j, outputIndex).Err?
    ensures RunsUpTo(runs, n, outputIndex) == RunsUpTo(runs, j, outputIndex)
    decreases n - j
  {
    if j < n {
      RunsUpToStops(runs, j, n - 1, outputIndex);
    }
  }

  /** The dictionary branch: for every quantity, append the list of its runs. */
  method SamplesFromDict(qoiCols: seq<string>, table: map<string, map<string, Eval>>, outputIndex: Option<int>)
    returns (res: Result<map<string, seq<Eval>>>)
    ensures res == Outcome(qoiCols, DictSteps(table, qoiCols, outputIndex))
  {
    ghost var blocks := seq(|qoiCols|, i requires 0 <= i < |qoiCols| => DictKeySteps(table, qoiCols[i], outputIndex));
    assert DictSteps(table, qoiCols, outputIndex) == Flatten(blocks);
    var samples: map<string, seq<Eval>> := map k | k in qoiCols :: [];
    assert samples == Collected(qoiCols, []);
    for i := 0 to |qoiCols|
      invariant FirstRaise(Flatten(blocks[..i])).None?
      invariant samples == Collected(qoiCols, Flatten(blocks[..i]))
    {
      FlattenSnoc(blocks, i);
      var err;
      samples, err := AppendColumn(qoiCols, table, qoiCols[i], outputIndex, samples, Flatten(blocks[..i]));
      if err.Some? {
        FlattenRest(blocks, i + 1);
        FirstRaiseConcat(Flatten(blocks[..i + 1]), Flatten(blocks[i + 1..]));
        return Err(err.value);
      }
    }
    assert blocks[..|qoiCols|] == blocks;
    res := Ok(samples);
  }

  /** The body of the dictionary branch's loop for the quantity `k`, after
      the steps `done`. */
  method AppendColumn(qoiCols: seq<string>, table: map<string, map<string, Eval>>, k: string, outputIndex: Option<int>,
                      samples0: map<string, seq<Eval>>, ghost done: seq<Step>)
    returns (samples: map<string, seq<Eval>>, err: Option<Error>)
    requires k in qoiCols && FirstRaise(done).None? && samples0 == Collected(qoiCols, done)
    ensures err == FirstRaise(done + DictKeySteps(table, k, outputIndex))
    ensures err.None? ==> samples == Collected(qoiCols, done + DictKeySteps(table, k, outputIndex))
  {
    samples := samples0;
    if k !in table {
      RaiseFirst(done, KeyError, []);
      assert done + [Raise(KeyError)] + [] == done + DictKeySteps(table, k, outputIndex);
      return samples, Some(KeyError);
    }
    var column := DictColumn(table[k], outputIndex);
    if column.Err? {
      RaiseFirst(done, column.error, []);
      assert done + [Raise(column.error)] + [] == done + DictKeySteps(table, k, outputIndex);
      return samples, Some(column.error);
    }
    CollectAppends(qoiCols, done, k, column.value);
    samples := samples[k := samples[k] + column.value];
    err := None;
  }

  /** `get_samples`: the DataFrame or the dictionary branch. */
  method GetSamples(qoiCols: seq<string>, t: Table, outputIndex: Option<int>)
    returns (res: Result<map<string, seq<Eval>>>)
    requires t.FrameTable? ==> WellFormed(t.frame)
    ensures res == SamplesOf(qoiCols, t, outputIndex)
  {
    match t
    case FrameTable(f) =>
      res := SamplesFromFrame(qoiCols, f, outputIndex);
    case DictTable(runs) =>
      res := SamplesFromDict(qoiCols, runs, outputIndex);
    case OtherTable =>
      res := Ok(map k | k in qoiCols :: []);
      assert res.value == Collected(qoiCols, []);
  }

  // ---------------------------------------------------------------------
  // What the two branches return.

  /** How often `k` is listed. */
  function Count(qs: seq<string>, k: string): nat {
    if |qs| == 0 then 0 else Count(qs[..|qs| - 1], k) + (if qs[|qs| - 1] == k then 1 else 0)
  }

  /** `x` written `n` times in a row. */
  function Repeat<T>(x: seq<T>, n: nat): seq<T> {
    if n == 0 then [] else Repeat(x, n - 1) + x
  }

  lemma {:induction false} FirstRaiseNone(steps: seq<Step>)
    ensures FirstRaise(steps).None? <==> forall i :: 0 <= i < |steps| ==> steps[i].Append?
  {
    if |steps| > 0 {
      var init := steps[..|steps| - 1];
      FirstRaiseNone(init);
      assert forall i :: 0 <= i < |init| ==> init[i] == steps[i];
    }
  }

  lemma {:induction false} FirstRaiseFlatten(blocks: seq<seq<Step>>)
    ensures FirstRaise(Flatten(blocks)).None? <==> forall u :: 0 <= u < |blocks| ==> FirstRaise(blocks[u]).None?
  {
    if |blocks| > 0 {
      var init := blocks[..|blocks| - 1];
      FirstRaiseFlatten(init);
      FirstRaiseConcat(Flatten(init), blocks[|blocks| - 1]);
      assert forall u :: 0 <= u < |init| ==> init[u] == blocks[u];
    }
  }

  lemma {:induction false} CollectFlatten(blocks: seq<seq<Step>>, k: string)
    ensures Collect(Flatten(blocks), k) == Flatten(seq(|blocks|, u requires 0 <= u < |blocks| => Collect(blocks[u], k)))
  {
    if |blocks| > 0 {
      var init := blocks[..|blocks| - 1];
      CollectFlatten(init, k);
      CollectConcat(Flatten(init), blocks[|blocks| - 1], k);
      var whole := seq(|blocks|, u requires 0 <= u < |blocks| => Collect(blocks[u], k));
      assert whole[..|whole| - 1] == seq(|init|, u requires 0 <= u < |init| => Collect(init[u], k));
    }
  }

  /** The appends of one run of the DataFrame loop under `k`: the run's
      value once per listing of `k`. */
  lemma {:induction false} CollectRun(f: Frame, run: string, qs: seq<string>, outputIndex: Option<int>, k: string)
    requires WellFormed(f)
    requires forall q :: q in qs ==> Extractable(f, run, q, outputIndex)
    ensures Collect(FrameRunSteps(f, run, qs, outputIndex), k) == Repeat([FrameValue(f, run, k, outputIndex)], Count(qs, k))
  {
    if |qs| > 0 {
      var init := qs[..|qs| - 1];
      CollectRun(f, run, init, outputIndex, k);
      assert FrameRunSteps(f, run, qs, outputIndex)[..|qs| - 1] == FrameRunSteps(f, run, init, outputIndex);
    }
  }

  /** The DataFrame branch succeeds exactly when, for every run and every
      listed quantity, the column exists and `output_index` is in range of
      the run's values. */
  lemma FrameSamplesOk(qoiCols: seq<string>, f: Frame, outputIndex: Option<int>)
    requires WellFormed(f)
    ensures SamplesOf(qoiCols, FrameTable(f), outputIndex).Ok? <==>
      forall run, k :: run in f.runId && k in qoiCols ==> Extractable(f, run, k, outputIndex)
  {
    var runs := Unique(f.runId);
    var blocks := seq(|runs|, u requires 0 <= u < |runs| => FrameRunSteps(f, runs[u], qoiCols, outputIndex));
    FirstRaiseFlatten(blocks);
    forall u | 0 <= u < |runs|
      ensures FirstRaise(blocks[u]).None? <==> forall k :: k in qoiCols ==> Extractable(f, runs[u], k, outputIndex)
    {
      FirstRaiseNone(blocks[u]);
      if FirstRaise(blocks[u]).None? {
        forall k | k in qoiCols ensures Extractable(f, runs[u], k, outputIndex) {
          var i :| 0 <= i < |qoiCols| && qoiCols[i] == k;
          assert blocks[u][i] == FrameStep(f, runs[u], k, outputIndex);
        }
      }
    }
  }

  /** On success, the list of a quantity holds, for every run in order of
      first appearance, the run's values once per listing of the quantity
      (exactly once when it is listed once). */
  lemma FrameSamplesContents(qoiCols: seq<string>, f: Frame, outputIndex: Option<int>, k: string)
    requires WellFormed(f) && k in qoiCols
    requires SamplesOf(qoiCols, FrameTable(f), outputIndex).Ok?
    ensures var runs := Unique(f.runId);
      SamplesOf(qoiCols, FrameTable(f), outputIndex).value[k]
        == Flatten(seq(|runs|, u requires 0 <= u < |runs| => Repeat([FrameValue(f, runs[u], k, outputIndex)], Count(qoiCols, k))))
  {
    var runs := Unique(f.runId);
    var blocks := seq(|runs|, u requires 0 <= u < |runs| => FrameRunSteps(f, runs[u], qoiCols, outputIndex));
    FrameSamplesOk(qoiCols, f, outputIndex);
    CollectFlatten(blocks, k);
    CollectRuns(qoiCols, f, outputIndex, k, runs, blocks);
  }

  /** What each run's block appends under `k`. */
  lemma CollectRuns(qoiCols: seq<string>, f: Frame, outputIndex: Option<int>, k: string, runs: seq<string>, blocks: seq<seq<Step>>)
    requires WellFormed(f) && k in qoiCols
    requires blocks == seq(|runs|, u requires 0 <= u < |runs| => FrameRunSteps(f, runs[u], qoiCols, outputIndex))
    requires forall u :: 0 <= u < |runs| ==> forall q :: q in qoiCols ==> Extractable(f, runs[u], q, outputIndex)
    ensures seq(|blocks|, u requires 0 <= u < |blocks| => Collect(blocks[u], k))
         == seq(|runs|, u requires 0 <= u < |runs| => Repeat([FrameValue(f, runs[u], k, outputIndex)], Count(qoiCols, k)))
  {
    forall u | 0 <= u < |runs|
      ensures Collect(blocks[u], k) == Repeat([FrameValue(f, runs[u], k, outputIndex)], Count(qoiCols, k))
    {
      CollectRun(f, runs[u], qoiCols, outputIndex, k);
    }
  }

  /** The appends of the dictionary loop under `k`: the list of `k`'s runs
      once per listing of `k`. */
  lemma {:induction false} CollectDict(table: map<string, map<string, Eval>>, qs: seq<string>, outputIndex: Option<int>, k: string)
    requires forall q :: q in qs ==> q in table && DictColumnOf(table[q], outputIndex).Ok?
    requires k in table && DictColumnOf(table[k], outputIndex).Ok?
    ensures Collect(DictSteps(table, qs, outputIndex), k) == Repeat(DictColumnOf(table[k], outputIndex).value, Count(qs, k))
  {
    if |qs| > 0 {
      var init := qs[..|qs| - 1];
      var last := qs[|qs| - 1];
      CollectDict(table, init, outputIndex, k);
      DictStepsSnoc(table, qs, outputIndex);
      CollectConcat(DictSteps(table, init, outputIndex), DictKeySteps(table, last, outputIndex), k);
      CollectOfAppends(last, DictColumnOf(table[last], outputIndex).value, k);
    }
  }

  lemma DictStepsSnoc(table: map<string, map<string, Eval>>, qs: seq<string>, outputIndex: Option<int>)
    requires |qs| > 0
    ensures DictSteps(table, qs, outputIndex)
         == DictSteps(table, qs[..|qs| - 1], outputIndex) + DictKeySteps(table, qs[|qs| - 1], outputIndex)
  {
    var init := qs[..|qs| - 1];
    var blocks := seq(|qs|, i requires 0 <= i < |qs| => DictKeySteps(table, qs[i], outputIndex));
    assert blocks[..|qs| - 1] == seq(|init|, i requires 0 <= i < |init| => DictKeySteps(table, init[i], outputIndex));
  }

  lemma {:induction false} CollectOfAppends(key: string, vs: seq<Eval>, k: string)
    ensures Collect(Appends(key, vs), k) == if key == k then vs else []
  {
    if |vs| > 0 {
      var init := vs[..|vs| - 1];
      CollectOfAppends(key, init, k);
      assert Appends(key, vs)[..|vs| - 1] == Appends(key, init);
    }
  }

  /** The dictionary branch succeeds exactly when every listed quantity is
      present and every one of its run lists can be built. */
  lemma DictSamplesOk(qoiCols: seq<string>, table: map<string, map<string, Eval>>, outputIndex: Option<int>)
    ensures SamplesOf(qoiCols, DictTable(table), outputIndex).Ok? <==>
      forall k :: k in qoiCols ==> k in table && DictColumnOf(table[k], outputIndex).Ok?
  {
    var blocks := seq(|qoiCols|, i requires 0 <= i < |qoiCols| => DictKeySteps(table, qoiCols[i], outputIndex));
    FirstRaiseFlatten(blocks);
    forall i | 0 <= i < |qoiCols|
      ensures FirstRaise(blocks[i]).None? <==> qoiCols[i] in table && DictColumnOf(table[qoiCols[i]], outputIndex).Ok?
    {
      var k := qoiCols[i];
      if k in table && DictColumnOf(table[k], outputIndex).Ok? {
        FirstRaiseNone(blocks[i]);
      }
    }
  }

  /** On success, the list of a quantity is its runs `1 .. max` once per
      listing of the quantity (exactly once when it is listed once). */
  lemma DictSamplesContents(qoiCols: seq<string>, table: map<string, map<string, Eval>>, outputIndex: Option<int>, k: string)
    requires k in qoiCols
    requires SamplesOf(qoiCols, DictTable(table), outputIndex).Ok?
    ensures k in table && DictColumnOf(table[k], outputIndex).Ok?
    ensures SamplesOf(qoiCols, DictTable(table), outputIndex).value[k]
         == Repeat(DictColumnOf(table[k], outputIndex).value, Count(qoiCols, k))
  {
    DictSamplesOk(qoiCols, table, outputIndex);
    CollectDict(table, qoiCols, outputIndex, k);
  }
}
