/** The numpy reductions the estimators use, over exact reals: `np.sum`,
    `np.mean` and the population variance `np.var` (ddof = 0), and the
    per-element columns of a sequence of vector-valued evaluations. */
module Statistics {

  /** One code evaluation of a quantity of interest: a vector of its output
      elements. A scalar quantity is a vector with one element. */
  type Eval = seq<real>

  function Sum(s: seq<real>): real {
    if |s| == 0 then 0.0 else s[0] + Sum(s[1..])
  }

  function Mean(s: seq<real>): real
    requires |s| > 0
  {
    Sum(s) / (|s| as real)
  }

  /** The squared distance of every element from the mean. */
  function SquaredDeviations(s: seq<real>): (d: seq<real>)
    requires |s| > 0
    ensures |d| == |s|
    ensures forall i :: 0 <= i < |s| ==> d[i] >= 0.0
  {
    var m := Mean(s);
    var d := seq(|s|, i requires 0 <= i < |s| => (s[i] - m) * (s[i] - m));
    assert forall i | 0 <= i < |s| :: d[i] >= 0.0 by {
      forall i | 0 <= i < |s| ensures d[i] >= 0.0 {
        SquareNonnegative(s[i] - m);
      }
    }
    d
  }

  lemma SquareNonnegative(x: real)
    ensures x * x >= 0.0
  {
  }

  /** `np.var(s)`: the mean squared deviation from the mean. */
  function Var(s: seq<real>): (v: real)
    requires |s| > 0
    ensures v >= 0.0
  {
    SumNonnegative(SquaredDeviations(s));
    Mean(SquaredDeviations(s))
  }

  predicate Constant(s: seq<real>) {
    forall i :: 0 <= i < |s| ==> s[i] == s[0]
  }

  lemma {:induction false} SumNonnegative(s: seq<real>)
    requires forall i :: 0 <= i < |s| ==> s[i] >= 0.0
    ensures Sum(s) >= 0.0
  {
    if |s| > 0 {
      SumNonnegative(s[1..]);
    }
  }

  lemma {:induction false} SumOfConstant(s: seq<real>, c: real)
    requires forall i :: 0 <= i < |s| ==> s[i] == c
    ensures Sum(s) == (|s| as real) * c
  {
    if |s| > 0 {
      SumOfConstant(s[1..], c);
    }
  }

  lemma MeanOfConstant(s: seq<real>)
    requires |s| > 0 && Constant(s)
    ensures Mean(s) == s[0]
  {
    SumOfConstant(s, s[0]);
    var n := |s| as real;
    assert Sum(s) == n * s[0];
  }

  /** Equal values have zero variance. */
  lemma ConstantVarianceZero(s: seq<real>)
    requires |s| > 0 && Constant(s)
    ensures Var(s) == 0.0
  {
    var d := SquaredDeviations(s);
    MeanOfConstant(s);
    SumOfConstant(d, 0.0);
  }

  /** Every evaluation has `w` output elements. */
  predicate Uniform(s: seq<Eval>, w: nat) {
    forall k :: 0 <= k < |s| ==> |s[k]| == w
  }

  /** `s[:, e]`: output element `e` of every evaluation, in order. */
  function Column(s: seq<Eval>, e: nat): (c: seq<real>)
    requires forall k :: 0 <= k < |s| ==> e < |s[k]|
    ensures |c| == |s|
  {
    seq(|s|, k requires 0 <= k < |s| => s[k][e])
  }

  /** Stacking evaluations (`np.r_`) stacks their columns. */
  lemma ColumnOfConcat(a: seq<Eval>, b: seq<Eval>, e: nat)
    requires forall k :: 0 <= k < |a| ==> e < |a[k]|
    requires forall k :: 0 <= k < |b| ==> e < |b[k]|
    ensures Column(a + b, e) == Column(a, e) + Column(b, e)
  {
  }

  /** `np.mean(s, axis=0)`: the mean of every output element. */
  function MeanVec(s: seq<Eval>, w: nat): (r: Eval)
    requires |s| > 0 && Uniform(s, w)
    ensures |r| == w
  {
    seq(w, e requires 0 <= e < w => Mean(Column(s, e)))
  }

  /** `np.var(s, axis=0)`: the variance of every output element. */
  function VarVec(s: seq<Eval>, w: nat): (r: Eval)
    requires |s| > 0 && Uniform(s, w)
    ensures |r| == w
    ensures forall e :: 0 <= e < w ==> r[e] >= 0.0
  {
    seq(w, e requires 0 <= e < w => Var(Column(s, e)))
  }
}
