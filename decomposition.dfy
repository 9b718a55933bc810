/** Saltelli's layout of the code evaluations of one quantity of interest.

    The evaluations arrive in blocks of `n_params + 2`: first the row of
    matrix M2, then the rows of N_1 .. N_n_params, then the row of M1, and the
    blocks repeat once per Monte Carlo sample. Separating them is a set of
    strided slices `evaluations[offset::step]`. */
module Decomposition {
  import opened Wrappers
  import opened Statistics

  /** Python's `s[offset::step]` for a non-negative offset and a positive
      step: every `step`-th element from `offset` on. */
  function Strided<T>(s: seq<T>, offset: nat, step: nat): (r: seq<T>)
    requires step > 0
    decreases |s| - offset
  {
    if offset >= |s| then [] else [s[offset]] + Strided(s, offset + step, step)
  }

  /** Element `k` of the slice is element `offset + k * step` of the
      sequence. */
  lemma {:induction false} StridedAt<T>(s: seq<T>, offset: nat, step: nat, k: nat)
    requires 0 < step && k < |Strided(s, offset, step)|
    ensures offset + k * step < |s| && Strided(s, offset, step)[k] == s[offset + k * step]
    decreases k
  {
    if k > 0 {
      StridedAt(s, offset + step, step, k - 1);
      assert offset + step + (k - 1) * step == offset + k * step;
    }
  }

  /** The slice has `n` elements when the last of them is the last element
      `offset + (n - 1) * step` that still lies inside the sequence. */
  lemma {:induction false} StridedCount<T>(s: seq<T>, offset: nat, step: nat, n: nat)
    requires 0 < step
    requires |s| <= offset + n * step
    requires n > 0 ==> offset + (n - 1) * step < |s|
    ensures |Strided(s, offset, step)| == n
    decreases n
  {
    if n > 0 {
      assert offset + step + (n - 1) * step == offset + n * step;
      if n > 1 {
        assert offset + step + (n - 2) * step == offset + (n - 1) * step;
      }
      StridedCount(s, offset + step, step, n - 1);
    }
  }

  /** When the sequence holds exactly `n` whole blocks of length `step`, a
      slice that starts inside the first block has `n` elements. */
  lemma StridedLength<T>(s: seq<T>, offset: nat, step: nat, n: nat)
    requires 0 < step && offset < step && |s| == n * step
    ensures |Strided(s, offset, step)| == n
  {
    if n > 0 {
      assert offset + (n - 1) * step < n * step;
    }
    StridedCount(s, offset, step, n);
  }

  /** Skipping a prefix of the sequence and skipping as many positions of
      the offset are the same. */
  lemma {:induction false} StridedShift<T>(prefix: seq<T>, rest: seq<T>, offset: nat, step: nat)
    requires 0 < step
    ensures Strided(prefix + rest, |prefix| + offset, step) == Strided(rest, offset, step)
    decreases |rest| - offset
  {
    var s := prefix + rest;
    if offset < |rest| {
      assert s[|prefix| + offset] == rest[offset];
      StridedShift(prefix, rest, offset + step, step);
      assert Strided(s, |prefix| + offset, step) == [rest[offset]] + Strided(s, |prefix| + offset + step, step);
    } else {
      assert Strided(s, |prefix| + offset, step) == [];
    }
  }

  /** A slice that starts in the first block takes one element of that block
      and then the same slice of the blocks after it. */
  lemma StridedCons<T>(block: seq<T>, rest: seq<T>, offset: nat, step: nat)
    requires 0 < step && offset < step && |block| == step
    ensures Strided(block + rest, offset, step) == [block[offset]] + Strided(rest, offset, step)
  {
    StridedShift(block, rest, offset, step);
  }

  /** The three parts of a block stream: the M2 rows, the M1 rows, and for
      every parameter `i` the rows of N_i (`ni[i]` is the column
      `f_Ni[:, i]`). */
  datatype Decomposed<T> = Decomposed(m2: seq<T>, m1: seq<T>, ni: seq<seq<T>>)

  /** Every part holds exactly `nMc` rows and there is one N part per
      parameter. */
  predicate WellShaped<T>(d: Decomposed<T>, nParams: nat, nMc: nat) {
    && |d.m2| == nMc && |d.m1| == nMc && |d.ni| == nParams
    && forall i :: 0 <= i < nParams ==> |d.ni[i]| == nMc
  }

  /** The slices that `_separate_output_values` takes. */
  function Decompose<T>(s: seq<T>, nParams: nat): Decomposed<T> {
    var step := nParams + 2;
    Decomposed(Strided(s, 0, step), Strided(s, step - 1, step),
               seq(nParams, i requires 0 <= i < nParams => Strided(s, i + 1, step)))
  }

  /** The block layout, for every row `k`: row `k` of M2 is evaluation
      `k * step`, row `k` of M1 is evaluation `k * step + step - 1`, row `k`
      of N_i is evaluation `k * step + i + 1`, and every part has exactly
      `n_mc` rows. */
  lemma DecompositionIndexing<T>(s: seq<T>, nParams: nat, nMc: nat, k: nat)
    requires |s| == nMc * (nParams + 2) && k < nMc
    ensures WellShaped(Decompose(s, nParams), nParams, nMc)
    ensures k * (nParams + 2) + nParams + 1 < |s|
    ensures Decompose(s, nParams).m2[k] == s[k * (nParams + 2)]
    ensures Decompose(s, nParams).m1[k] == s[k * (nParams + 2) + nParams + 1]
    ensures forall i :: 0 <= i < nParams ==> Decompose(s, nParams).ni[i][k] == s[k * (nParams + 2) + i + 1]
  {
    DecompositionShape(s, nParams, nMc);
    PartAt(s, 0, nParams, nMc, k);
    PartAt(s, nParams + 1, nParams, nMc, k);
    forall i | 0 <= i < nParams
      ensures Decompose(s, nParams).ni[i][k] == s[k * (nParams + 2) + i + 1]
    {
      PartAt(s, i + 1, nParams, nMc, k);
    }
  }

  lemma DecompositionShape<T>(s: seq<T>, nParams: nat, nMc: nat)
    requires |s| == nMc * (nParams + 2)
    ensures WellShaped(Decompose(s, nParams), nParams, nMc)
  {
    var step := nParams + 2;
    var d := Decompose(s, nParams);
    StridedLength(s, 0, step, nMc);
    StridedLength(s, step - 1, step, nMc);
    forall i | 0 <= i < nParams ensures |d.ni[i]| == nMc {
      StridedLength(s, i + 1, step, nMc);
    }
  }

  lemma PartAt<T>(s: seq<T>, offset: nat, nParams: nat, nMc: nat, k: nat)
    requires |s| == nMc * (nParams + 2) && offset < nParams + 2 && k < nMc
    ensures |Strided(s, offset, nParams + 2)| == nMc
    ensures k * (nParams + 2) + offset < |s|
    ensures Strided(s, offset, nParams + 2)[k] == s[k * (nParams + 2) + offset]
  {
    StridedLength(s, offset, nParams + 2, nMc);
    StridedAt(s, offset, nParams + 2, k);
  }

  /** Block `k` of the stream laid out from a decomposition: the rows `k` of
      M2, N_1 .. N_n_params and M1, in that order. */
  function Block<T>(d: Decomposed<T>, nParams: nat, nMc: nat, k: nat): (b: seq<T>)
    requires WellShaped(d, nParams, nMc) && k < nMc
    ensures |b| == nParams + 2
  {
    [d.m2[k]] + seq(nParams, i requires 0 <= i < nParams => d.ni[i][k]) + [d.m1[k]]
  }

  /** A decomposition without its first row in every part. */
  function Rest<T>(d: Decomposed<T>, nParams: nat, nMc: nat): (e: Decomposed<T>)
    requires WellShaped(d, nParams, nMc) && nMc > 0
    ensures WellShaped(e, nParams, nMc - 1)
  {
    Decomposed(d.m2[1..], d.m1[1..], seq(nParams, i requires 0 <= i < nParams => d.ni[i][1..]))
  }

  /** The evaluation stream the sampler produces for this decomposition:
      block after block of M2, N_1 .. N_n_params, M1. */
  function Recompose<T>(d: Decomposed<T>, nParams: nat, nMc: nat): (s: seq<T>)
    requires WellShaped(d, nParams, nMc)
    ensures |s| == nMc * (nParams + 2)
    decreases nMc
  {
    if nMc == 0 then [] else Block(d, nParams, nMc, 0) + Recompose(Rest(d, nParams, nMc), nParams, nMc - 1)
  }

  /** Decomposing one block in front of a stream adds that block's elements
      in front of every part. */
  lemma DecomposeCons<T>(block: seq<T>, rest: seq<T>, nParams: nat)
    requires |block| == nParams + 2
    ensures Decompose(block + rest, nParams) == Decomposed(
      [block[0]] + Decompose(rest, nParams).m2,
      [block[nParams + 1]] + Decompose(rest, nParams).m1,
      seq(nParams, i requires 0 <= i < nParams => [block[i + 1]] + Decompose(rest, nParams).ni[i]))
  {
    var step := nParams + 2;
    StridedCons(block, rest, 0, step);
    StridedCons(block, rest, step - 1, step);
    forall i | 0 <= i < nParams
      ensures Decompose(block + rest, nParams).ni[i] == [block[i + 1]] + Decompose(rest, nParams).ni[i]
    {
      StridedCons(block, rest, i + 1, step);
    }
  }

  /** The decomposition is a partition that keeps order: laying the parts
      back out in blocks gives the original stream. */
  lemma {:induction false} DecomposeThenRecompose<T>(s: seq<T>, nParams: nat, nMc: nat)
    requires |s| == nMc * (nParams + 2)
    ensures WellShaped(Decompose(s, nParams), nParams, nMc)
    ensures Recompose(Decompose(s, nParams), nParams, nMc) == s
    decreases nMc
  {
    var step := nParams + 2;
    DecompositionShape(s, nParams, nMc);
    if nMc > 0 {
      var d := Decompose(s, nParams);
      var block, rest := s[..step], s[step..];
      assert s == block + rest;
      assert |rest| == (nMc - 1) * step;
      DecomposeCons(block, rest, nParams);
      DecompositionShape(rest, nParams, nMc - 1);
      assert Rest(d, nParams, nMc) == Decompose(rest, nParams);
      assert Block(d, nParams, nMc, 0) == block;
      DecomposeThenRecompose(rest, nParams, nMc - 1);
    }
  }

  /** ... and every row of every part comes from exactly one position of the
      stream: decomposing a laid-out stream gives the parts back. */
  lemma {:induction false} RecomposeThenDecompose<T>(d: Decomposed<T>, nParams: nat, nMc: nat)
    requires WellShaped(d, nParams, nMc)
    ensures Decompose(Recompose(d, nParams, nMc), nParams) == d
    decreases nMc
  {
    var step := nParams + 2;
    var e := Decompose(Recompose(d, nParams, nMc), nParams);
    if nMc == 0 {
      StridedLength(Recompose(d, nParams, nMc), 0, step, 0);
      StridedLength(Recompose(d, nParams, nMc), step - 1, step, 0);
      forall i | 0 <= i < nParams ensures e.ni[i] == d.ni[i] {
        StridedLength(Recompose(d, nParams, nMc), i + 1, step, 0);
      }
    } else {
      var block := Block(d, nParams, nMc, 0);
      var r := Rest(d, nParams, nMc);
      DecomposeCons(block, Recompose(r, nParams, nMc - 1), nParams);
      RecomposeThenDecompose(r, nParams, nMc - 1);
      assert e.m2 == [d.m2[0]] + d.m2[1..];
      assert e.m1 == [d.m1[0]] + d.m1[1..];
      forall i | 0 <= i < nParams ensures e.ni[i] == d.ni[i] {
        assert e.ni[i] == [d.ni[i][0]] + d.ni[i][1..];
      }
    }
  }

  /** numpy's assignment `f_Ni[:, i] = col` into `n` rows: it succeeds when
      `col` has `n` rows, or broadcasts a single row; otherwise it raises. */
  function Broadcast<T>(col: seq<T>, n: nat): (r: Option<seq<T>>)
    ensures r.Some? <==> (|col| == n || |col| == 1)
    ensures r.Some? ==> |r.value| == n && forall k :: 0 <= k < n ==> r.value[k] == col[if |col| == n then k else 0]
  {
    if |col| == n then Some(col)
    else if |col| == 1 then Some(seq(n, k requires 0 <= k < n => col[0]))
    else None
  }

  /** An evaluation whose every element is zero (`np.zeros`). */
  function Zeros(w: nat): (e: Eval)
    ensures |e| == w && forall i :: 0 <= i < w ==> e[i] == 0.0
  {
    seq(w, i requires 0 <= i < w => 0.0)
  }

  /** `_separate_output_values(samples, n_params, n_mc_samples)`: the M2 and
      M1 slices, and a preallocated `n_mc x n_params` table filled column by
      column with the N_i slices. `ok` is false when numpy raises: in
      `np.array` on evaluations of different widths, or because a slice does
      not fit its column. */
  method SeparateOutputValues(samples: seq<Eval>, nParams: nat, nMcSamples: nat)
    returns (fM2: seq<Eval>, fM1: seq<Eval>, fNi: array2<Eval>, ok: bool)
    requires |samples| > 0
    ensures fM2 == Decompose(samples, nParams).m2 && fM1 == Decompose(samples, nParams).m1
    ensures fresh(fNi)
    ensures fNi.Length0 == nMcSamples && fNi.Length1 == nParams
    ensures ok <==> && Uniform(samples, |samples[0]|)
                    && forall i :: 0 <= i < nParams ==> Broadcast(Decompose(samples, nParams).ni[i], nMcSamples).Some?
    ensures ok ==> forall k, i :: 0 <= k < nMcSamples && 0 <= i < nParams ==>
      fNi[k, i] == Broadcast(Decompose(samples, nParams).ni[i], nMcSamples).value[k]
  {
    var step := nParams + 2;
    var d := Decompose(samples, nParams);
    var w := |samples[0]|;
    fNi := new Eval[nMcSamples, nParams]((k, i) => Zeros(w));
    fM2 := Strided(samples, 0, step);
    fM1 := Strided(samples, step - 1, step);
    if !Uniform(samples, w) {
      return fM2, fM1, fNi, false;
    }
    for i := 0 to nParams
      invariant fNi.Length0 == nMcSamples && fNi.Length1 == nParams
      invariant forall c :: 0 <= c < i ==> Broadcast(d.ni[c], nMcSamples).Some?
      invariant forall k, c :: 0 <= k < nMcSamples && 0 <= c < i ==>
        fNi[k, c] == Broadcast(d.ni[c], nMcSamples).value[k]
    {
      var col := Strided(samples, i + 1, step);
      assert col == d.ni[i];
      if |col| == nMcSamples {
        forall k | 0 <= k < nMcSamples {
          fNi[k, i] := col[k];
        }
      } else if |col| == 1 {
        forall k | 0 <= k < nMcSamples {
          fNi[k, i] := col[0];
        }
      } else {
        ok := false;
        return;
      }
    }
    ok := true;
  }

  /** When the stream holds whole blocks, every N_i slice fits its column
      exactly, so the table is the decomposition itself. */
  lemma WholeBlocksFit<T>(s: seq<T>, nParams: nat, nMc: nat)
    requires |s| == nMc * (nParams + 2)
    ensures forall i :: 0 <= i < nParams ==> Broadcast(Decompose(s, nParams).ni[i], nMc) == Some(Decompose(s, nParams).ni[i])
  {
    DecompositionShape(s, nParams, nMc);
  }
}
