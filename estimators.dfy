/** Saltelli's estimators of the first- and total-order Sobol indices of one
    parameter, from the code evaluations on M2, M1 and N_i, with numpy's
    masking of a zero variance. */
module Estimators {
  import opened Statistics

  /** `x / (V + (V == 0)) * (V != 0)`: division by the variance, with the
      booleans read as 0 and 1, so that a zero variance gives exactly 0
      instead of a division by zero. */
  function MaskedDiv(x: real, v: real): (r: real)
    ensures v == 0.0 ==> r == 0.0
    ensures v != 0.0 ==> r == x / v
  {
    x / (v + (if v == 0.0 then 1.0 else 0.0)) * (if v != 0.0 then 1.0 else 0.0)
  }

  /** A non-negative quantity over a non-negative variance stays
      non-negative. */
  lemma MaskedDivNonnegative(x: real, v: real)
    requires x >= 0.0 && v >= 0.0
    ensures MaskedDiv(x, v) >= 0.0
  {
    if v != 0.0 {
      assert x / v >= 0.0;
    }
  }

  /** Rows of the three matrices, one evaluation (element) per row. */
  predicate SameRows(m2: seq<real>, m1: seq<real>, ni: seq<real>) {
    |m2| > 0 && |m1| == |m2| && |ni| == |m2|
  }

  /** `f_M1 * (f_Ni - f_M2)`, row by row. */
  function FirstOrderTerms(m2: seq<real>, m1: seq<real>, ni: seq<real>): (t: seq<real>)
    requires SameRows(m2, m1, ni)
    ensures |t| == |m2|
  {
    seq(|m2|, k requires 0 <= k < |m2| => m1[k] * (ni[k] - m2[k]))
  }

  /** `(f_M2 - f_Ni) ** 2`, row by row. */
  function TotalOrderTerms(m2: seq<real>, ni: seq<real>): (t: seq<real>)
    requires |ni| == |m2|
    ensures |t| == |m2| && forall k :: 0 <= k < |t| ==> t[k] >= 0.0
  {
    seq(|m2|, k requires 0 <= k < |m2| => (m2[k] - ni[k]) * (m2[k] - ni[k]))
  }

  /** The variance `V` of the concatenated M2 and M1 evaluations. */
  function OutputVariance(m2: seq<real>, m1: seq<real>): (v: real)
    requires |m2| > 0
    ensures v >= 0.0
  {
    Var(m2 + m1)
  }

  /** `_first_order` for one output element. */
  function FirstOrder(m2: seq<real>, m1: seq<real>, ni: seq<real>): real
    requires SameRows(m2, m1, ni)
  {
    MaskedDiv(Mean(FirstOrderTerms(m2, m1, ni)), OutputVariance(m2, m1))
  }

  /** `_total_order` for one output element. */
  function TotalOrder(m2: seq<real>, m1: seq<real>, ni: seq<real>): real
    requires SameRows(m2, m1, ni)
  {
    MaskedDiv(0.5 * Mean(TotalOrderTerms(m2, ni)), OutputVariance(m2, m1))
  }

  /** Both estimators are exactly 0 where the variance is 0, and the masked
      quotient by the variance elsewhere. */
  lemma EstimatorMasking(m2: seq<real>, m1: seq<real>, ni: seq<real>)
    requires SameRows(m2, m1, ni)
    ensures OutputVariance(m2, m1) == 0.0 ==> FirstOrder(m2, m1, ni) == 0.0 && TotalOrder(m2, m1, ni) == 0.0
    ensures OutputVariance(m2, m1) != 0.0 ==>
      && FirstOrder(m2, m1, ni) == Mean(FirstOrderTerms(m2, m1, ni)) / OutputVariance(m2, m1)
      && TotalOrder(m2, m1, ni) == 0.5 * Mean(TotalOrderTerms(m2, ni)) / OutputVariance(m2, m1)
  {
  }

  /** The total-order estimate is never negative. */
  lemma TotalOrderNonnegative(m2: seq<real>, m1: seq<real>, ni: seq<real>)
    requires SameRows(m2, m1, ni)
    ensures TotalOrder(m2, m1, ni) >= 0.0
  {
    var t := TotalOrderTerms(m2, ni);
    SumNonnegative(t);
    MaskedDivNonnegative(0.5 * Mean(t), OutputVariance(m2, m1));
  }

  /** When every M2 and M1 evaluation is the same, the output does not vary
      and both indices are 0. */
  lemma ConstantOutputGivesZero(m2: seq<real>, m1: seq<real>, ni: seq<real>)
    requires SameRows(m2, m1, ni) && Constant(m2 + m1)
    ensures FirstOrder(m2, m1, ni) == 0.0 && TotalOrder(m2, m1, ni) == 0.0
  {
    ConstantVarianceZero(m2 + m1);
  }

  /** When changing parameter `i` does not change any evaluation
      (`f_Ni == f_M2`), both of its indices are 0. */
  lemma NoEffectGivesZero(m2: seq<real>, m1: seq<real>, ni: seq<real>)
    requires SameRows(m2, m1, ni) && ni == m2
    ensures FirstOrder(m2, m1, ni) == 0.0 && TotalOrder(m2, m1, ni) == 0.0
  {
    SumOfConstant(FirstOrderTerms(m2, m1, ni), 0.0);
    SumOfConstant(TotalOrderTerms(m2, ni), 0.0);
  }

  /** The same three matrices, one evaluation vector of width `w` per row. */
  predicate SameShape(m2: seq<Eval>, m1: seq<Eval>, ni: seq<Eval>, w: nat) {
    |m2| > 0 && |m1| == |m2| && |ni| == |m2| && Uniform(m2, w) && Uniform(m1, w) && Uniform(ni, w)
  }

  /** `_first_order(f_M2, f_M1, f_Ni)`: numpy reduces over the rows (axis 0),
      giving one index per output element. */
  function FirstOrderVec(m2: seq<Eval>, m1: seq<Eval>, ni: seq<Eval>, w: nat): (r: Eval)
    requires SameShape(m2, m1, ni, w)
    ensures |r| == w
  {
    seq(w, e requires 0 <= e < w => FirstOrder(Column(m2, e), Column(m1, e), Column(ni, e)))
  }

  /** `_total_order(f_M2, f_M1, f_Ni)`, one index per output element. */
  function TotalOrderVec(m2: seq<Eval>, m1: seq<Eval>, ni: seq<Eval>, w: nat): (r: Eval)
    requires SameShape(m2, m1, ni, w)
    ensures |r| == w
  {
    seq(w, e requires 0 <= e < w => TotalOrder(Column(m2, e), Column(m1, e), Column(ni, e)))
  }

  /** The variance numpy masks is the one of the stacked evaluations
      `np.r_[f_M2, f_M1]`, taken per output element. */
  lemma StackedVariance(m2: seq<Eval>, m1: seq<Eval>, ni: seq<Eval>, w: nat, e: nat)
    requires SameShape(m2, m1, ni, w) && e < w
    ensures Uniform(m2 + m1, w)
    ensures OutputVariance(Column(m2, e), Column(m1, e)) == VarVec(m2 + m1, w)[e]
  {
    ColumnOfConcat(m2, m1, e);
  }

  /** Every output element of the total-order estimate is non-negative. */
  lemma TotalOrderVecNonnegative(m2: seq<Eval>, m1: seq<Eval>, ni: seq<Eval>, w: nat)
    requires SameShape(m2, m1, ni, w)
    ensures forall e :: 0 <= e < w ==> TotalOrderVec(m2, m1, ni, w)[e] >= 0.0
  {
    forall e | 0 <= e < w ensures TotalOrderVec(m2, m1, ni, w)[e] >= 0.0 {
      TotalOrderNonnegative(Column(m2, e), Column(m1, e), Column(ni, e));
    }
  }
}
