/** The one-dimensional reductions that the inflammation statistics apply along
    one axis of a table: sum, maximum, minimum, arithmetic mean and population
    variance (divisor N, numpy's default ddof=0), over exact reals. */
module Reductions {

  type Vector = seq<real>

  /** Total of the entries, added from the front. */
  function Sum(s: Vector): real
  {
    if |s| == 0 then 0.0 else s[0] + Sum(s[1..])
  }

  /** Largest entry: an upper bound that some entry attains. */
  function Max(s: Vector): (m: real)
    requires |s| > 0
    ensures forall i :: 0 <= i < |s| ==> s[i] <= m
    ensures exists i :: 0 <= i < |s| && m == s[i]
  {
    if |s| == 1 then s[0]
    else
      var rest := Max(s[1..]);
      assert forall i :: 1 <= i < |s| ==> s[i] == s[1..][i - 1];
      if s[0] >= rest then s[0] else rest
  }

  /** Smallest entry: a lower bound that some entry attains. */
  function Min(s: Vector): (m: real)
    requires |s| > 0
    ensures forall i :: 0 <= i < |s| ==> m <= s[i]
    ensures exists i :: 0 <= i < |s| && m == s[i]
  {
    if |s| == 1 then s[0]
    else
      var rest := Min(s[1..]);
      assert forall i :: 1 <= i < |s| ==> s[i] == s[1..][i - 1];
      if s[0] <= rest then s[0] else rest
  }

  /** Arithmetic mean: the sum over the count. */
  function Mean(s: Vector): real
    requires |s| > 0
  {
    Sum(s) / (|s| as real)
  }

  /** Squares of each entry's distance from `mu`. */
  function SquaredDeviations(s: Vector, mu: real): (r: Vector)
    ensures |r| == |s|
    ensures forall i :: 0 <= i < |s| ==> 0.0 <= r[i]
  {
    var r := seq(|s|, i requires 0 <= i < |s| => (s[i] - mu) * (s[i] - mu));
    assert forall i :: 0 <= i < |s| ==> 0.0 <= r[i] by {
      forall i | 0 <= i < |s| ensures 0.0 <= r[i] {
        SquareSign(s[i] - mu, r[i]);
      }
    }
    r
  }

  /** Population variance: the mean squared deviation from the mean. */
  function Variance(s: Vector): (v: real)
    requires |s| > 0
    ensures 0.0 <= v
  {
    var dev := SquaredDeviations(s, Mean(s));
    MeanLowerBound(dev, 0.0);
    Mean(dev)
  }

  /** Entries at least `lo` put the total at least n*lo. */
  lemma {:induction false} SumLowerBound(s: Vector, lo: real)
    requires forall i :: 0 <= i < |s| ==> lo <= s[i]
    ensures (|s| as real) * lo <= Sum(s)
  {
    if |s| > 0 {
      assert forall i :: 0 <= i < |s| - 1 ==> s[1..][i] == s[i + 1];
      SumLowerBound(s[1..], lo);
      assert (|s| as real) * lo == lo + ((|s| - 1) as real) * lo;
    }
  }

  /** Entries at most `hi` put the total at most n*hi. */
  lemma {:induction false} SumUpperBound(s: Vector, hi: real)
    requires forall i :: 0 <= i < |s| ==> s[i] <= hi
    ensures Sum(s) <= (|s| as real) * hi
  {
    if |s| > 0 {
      assert forall i :: 0 <= i < |s| - 1 ==> s[1..][i] == s[i + 1];
      SumUpperBound(s[1..], hi);
      assert (|s| as real) * hi == hi + ((|s| - 1) as real) * hi;
    }
  }

  /** A lower bound on every entry bounds the mean. */
  lemma MeanLowerBound(s: Vector, lo: real)
    requires |s| > 0
    requires forall i :: 0 <= i < |s| ==> lo <= s[i]
    ensures lo <= Mean(s)
  {
    var n := |s| as real;
    SumLowerBound(s, lo);
    assert Mean(s) - lo == (Sum(s) - n * lo) / n;
  }

  /** An upper bound on every entry bounds the mean. */
  lemma MeanUpperBound(s: Vector, hi: real)
    requires |s| > 0
    requires forall i :: 0 <= i < |s| ==> s[i] <= hi
    ensures Mean(s) <= hi
  {
    var n := |s| as real;
    SumUpperBound(s, hi);
    assert hi - Mean(s) == (n * hi - Sum(s)) / n;
  }

  /** The mean lies between the smallest and the largest entry. */
  lemma MeanBetweenMinAndMax(s: Vector)
    requires |s| > 0
    ensures Min(s) <= Mean(s) <= Max(s)
  {
    MeanLowerBound(s, Min(s));
    MeanUpperBound(s, Max(s));
  }

  /** The mean of entries that all equal `c` is `c`. */
  lemma MeanOfConstant(s: Vector, c: real)
    requires |s| > 0
    requires forall i :: 0 <= i < |s| ==> s[i] == c
    ensures Mean(s) == c
  {
    MeanLowerBound(s, c);
    MeanUpperBound(s, c);
  }

  /** Non-negative entries with a zero total are all zero. */
  lemma {:induction false} ZeroSumOfNonNegative(s: Vector)
    requires forall i :: 0 <= i < |s| ==> 0.0 <= s[i]
    requires Sum(s) == 0.0
    ensures forall i :: 0 <= i < |s| ==> s[i] == 0.0
  {
    if |s| > 0 {
      assert forall i :: 0 <= i < |s| - 1 ==> s[1..][i] == s[i + 1];
      SumLowerBound(s[1..], 0.0);
      ZeroSumOfNonNegative(s[1..]);
    }
  }

  /** The population variance is zero exactly when all entries are equal. */
  lemma VarianceZeroIffConstant(s: Vector)
    requires |s| > 0
    ensures Variance(s) == 0.0 <==> forall i, j :: 0 <= i < |s| && 0 <= j < |s| ==> s[i] == s[j]
  {
    var mu := Mean(s);
    var dev := SquaredDeviations(s, mu);
    if forall i, j :: 0 <= i < |s| && 0 <= j < |s| ==> s[i] == s[j] {
      MeanOfConstant(s, s[0]);
      assert forall i :: 0 <= i < |s| ==> dev[i] == 0.0;
      MeanOfConstant(dev, 0.0);
    }
    if Variance(s) == 0.0 {
      assert Sum(dev) == 0.0;
      ZeroSumOfNonNegative(dev);
      forall i | 0 <= i < |s| ensures s[i] == mu {
        SquareSign(s[i] - mu, dev[i]);
      }
    }
  }

  /** Sign facts about a product `p` of `a` and `b`; the product is passed
      as its own value so that the solver reasons about it linearly. */
  lemma ProductSign(a: real, b: real, p: real)
    requires p == a * b
    ensures 0.0 <= a && 0.0 <= b ==> 0.0 <= p
    ensures a <= 0.0 && b <= 0.0 ==> 0.0 <= p
    ensures p == 0.0 ==> a == 0.0 || b == 0.0
  {
  }

  /** A square `p` of `x` is non-negative, and zero only for `x` zero. */
  lemma SquareSign(x: real, p: real)
    requires p == x * x
    ensures 0.0 <= p
    ensures p == 0.0 ==> x == 0.0
  {
    ProductSign(x, x, p);
  }
}
