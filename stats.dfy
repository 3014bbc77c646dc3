/** The descriptive statistics of the widget: `average` and the population
    variance behind the gridline steps `_xStep` and `_yStep`.  Square roots
    are not modelled; a variance stands for the square of its step. */
module Stats {
  import opened Wrappers

  /** The fold `data.reduce((sum, value) => sum + value, 0)`. */
  function Sum(xs: seq<real>): real
  {
    if xs == [] then 0.0 else Sum(xs[..|xs| - 1]) + xs[|xs| - 1]
  }

  /** `average(data)`: the sum divided by the length; `NaN` (None) for an empty list. */
  function Average(xs: seq<real>): (r: Option<real>)
    ensures r.Some? <==> |xs| > 0
    ensures r.Some? ==> r.value * (|xs| as real) == Sum(xs)
  {
    if |xs| == 0 then None else Some(Sum(xs) / (|xs| as real))
  }

  /** The `sqrDiff` mapping: each element's squared distance from `center`. */
  function SquareDiffs(xs: seq<real>, center: real): (r: seq<real>)
    ensures |r| == |xs|
  {
    seq(|xs|, i requires 0 <= i < |xs| => (xs[i] - center) * (xs[i] - center))
  }

  /** Population variance: the mean squared deviation from the mean. */
  function Variance(xs: seq<real>): Option<real>
  {
    match Average(xs)
    case None => None
    case Some(m) => Average(SquareDiffs(xs, m))
  }

  /** The squared step as the loop leaves it: `avg = total / numKeys`, then
      the average of the squared diffs of `coerced` from it; `NaN` (None)
      for no keys. */
  function StepFromTotal(coerced: seq<real>, total: real, count: nat): Option<real>
  {
    if count == 0 then None
    else Average(SquareDiffs(coerced, total / (count as real)))
  }

  /** The squared step as `_updateData` derives it: the mean squared deviation
      of `coerced` (the keys as `Number(obj.key)` reads them) from the mean of
      `parsed` (the keys as `handleKey` totals them). */
  function StepVariance(coerced: seq<real>, parsed: seq<real>): Option<real>
  {
    StepFromTotal(coerced, Sum(parsed), |parsed|)
  }

  /** When both readings of the keys agree, the step is the population
      variance; for values they always agree. */
  lemma StepIsVariance(xs: seq<real>)
    ensures StepVariance(xs, xs) == Variance(xs)
  {
  }

  ghost predicate Constant(xs: seq<real>)
  {
    forall i, j :: 0 <= i < |xs| && 0 <= j < |xs| ==> xs[i] == xs[j]
  }

  lemma {:induction false} SumOfConstant(xs: seq<real>, v: real)
    requires forall i :: 0 <= i < |xs| ==> xs[i] == v
    ensures Sum(xs) == (|xs| as real) * v
  {
    if xs != [] {
      SumOfConstant(xs[..|xs| - 1], v);
    }
  }

  lemma {:induction false} SumNonnegative(xs: seq<real>)
    requires forall i :: 0 <= i < |xs| ==> xs[i] >= 0.0
    ensures Sum(xs) >= 0.0
  {
    if xs != [] {
      SumNonnegative(xs[..|xs| - 1]);
    }
  }

  /** A sum of non-negative terms is zero only when every term is zero. */
  lemma {:induction false} SumZeroOnlyIfAllZero(xs: seq<real>)
    requires forall i :: 0 <= i < |xs| ==> xs[i] >= 0.0
    requires Sum(xs) == 0.0
    ensures forall i :: 0 <= i < |xs| ==> xs[i] == 0.0
  {
    if xs != [] {
      var init := xs[..|xs| - 1];
      SumNonnegative(init);
      SumZeroOnlyIfAllZero(init);
      assert forall i :: 0 <= i < |init| ==> xs[i] == init[i];
    }
  }

  /** The average of a list lies between its smallest and its largest element. */
  lemma {:induction false} AverageWithinBounds(xs: seq<real>, lo: real, hi: real)
    requires |xs| > 0
    requires forall i :: 0 <= i < |xs| ==> lo <= xs[i] <= hi
    ensures lo <= Average(xs).value <= hi
  {
    SumBetween(xs, lo, hi);
  }

  lemma {:induction false} SumBetween(xs: seq<real>, lo: real, hi: real)
    requires forall i :: 0 <= i < |xs| ==> lo <= xs[i] <= hi
    ensures (|xs| as real) * lo <= Sum(xs) <= (|xs| as real) * hi
  {
    if xs != [] {
      SumBetween(xs[..|xs| - 1], lo, hi);
    }
  }

  /** Variance is never negative, so it always has a real square root. */
  lemma VarianceNonnegative(xs: seq<real>)
    requires |xs| > 0
    ensures Variance(xs).Some? && Variance(xs).value >= 0.0
  {
    var m := Average(xs).value;
    var d := SquareDiffs(xs, m);
    forall i | 0 <= i < |d| ensures d[i] >= 0.0 {
      SquareNonnegative(xs[i] - m);
    }
    SumNonnegative(d);
  }

  /** The step of constant data is zero, and only constant data has step zero. */
  lemma VarianceZeroIffConstant(xs: seq<real>)
    requires |xs| > 0
    ensures Variance(xs) == Some(0.0) <==> Constant(xs)
  {
    if Constant(xs) {
      ConstantVarianceZero(xs);
    }
    if Variance(xs) == Some(0.0) {
      ZeroVarianceConstant(xs);
    }
  }

  lemma ConstantVarianceZero(xs: seq<real>)
    requires |xs| > 0 && Constant(xs)
    ensures Variance(xs) == Some(0.0)
  {
    var n := |xs| as real;
    SumOfConstant(xs, xs[0]);
    var m := Average(xs).value;
    assert m * n == n * xs[0];
    assert m == xs[0];
    var d := SquareDiffs(xs, m);
    assert forall i :: 0 <= i < |d| ==> d[i] == 0.0;
    SumOfConstant(d, 0.0);
  }

  lemma ZeroVarianceConstant(xs: seq<real>)
    requires |xs| > 0 && Variance(xs) == Some(0.0)
    ensures Constant(xs)
  {
    var m := Average(xs).value;
    var d := SquareDiffs(xs, m);
    forall i | 0 <= i < |d| ensures d[i] >= 0.0 {
      SquareNonnegative(xs[i] - m);
    }
    SumZeroOnlyIfAllZero(d);
    forall i | 0 <= i < |xs| ensures xs[i] == m {
      assert d[i] == 0.0;
      ProductZero(xs[i] - m, xs[i] - m);
    }
  }

  lemma SquareNonnegative(x: real)
    ensures x * x >= 0.0
  {
    if x < 0.0 {
      assert x * x == (-x) * (-x);
    }
  }

  lemma ProductZero(a: real, b: real)
    requires a * b == 0.0
    ensures a == 0.0 || b == 0.0
  {
  }
}
